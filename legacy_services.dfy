/**
  internal/service/complaintService/complaints.go: the older copy of
  ComplaintService. CreateComplaint returns only the category's answer;
  GetAllComplaints returns every store error as it is.
 */
module LegacyComplaintService {
  import opened Errors
  import opened Domain
  import opened Tables
  import opened Storage

  class Service {
    const storage: Database

    constructor (strg: Database)
      ensures storage == strg
    {
      storage := strg;
    }

    /** CreateComplaint: never saves when the gate errors or denies; success returns the saved answer. */
    method CreateComplaint(barcode: int, categoryId: int, message: string, now: int, answerReadFails: bool)
      returns (r: Result<string>)
      requires storage.Valid()
      modifies storage
      ensures storage.Valid()
      ensures var gate := old(storage.CheckComplaintLimit(barcode, now));
        gate.1.Some? ==> r == Err(Wrapped("failed to check complaint limit", gate.1.value)) && unchanged(storage)
      ensures (old(storage.online) &&
               exists id :: OwnedBy(old(storage.complaints), barcode, id) && now - old(storage.complaints)[id].createdAt < Hour) ==>
        r.Err? && Is(r.error, Sentinel(LimitOneComplaintInOneHour)) && unchanged(storage)
      ensures old(storage.CheckComplaintLimit(barcode, now)).0 ==>
        storage.categories == old(storage.categories) && storage.online == old(storage.online) &&
        storage.nextCategoryId == old(storage.nextCategoryId) &&
        storage.nextComplaintId == old(storage.nextComplaintId) + 1 &&
        (categoryId !in storage.categories ==>
          r == Err(Wrapped("failed to save complaint", Wrapped("failed to save complaint", Driver(ForeignKeyViolation)))) &&
          storage.complaints == old(storage.complaints)) &&
        (categoryId in storage.categories ==>
          storage.complaints == old(storage.complaints)[old(storage.nextComplaintId) := NewComplaintRow(barcode, categoryId, message, now)] &&
          (!answerReadFails ==> r == Ok(storage.categories[categoryId].answer)) &&
          (answerReadFails ==>
            r == Err(Wrapped("failed to save complaint", Wrapped("failed to get categories answer", Driver(ConnectionFailure))))))
      ensures r.Ok? ==> old(storage.CheckComplaintLimit(barcode, now)) == (true, None)
    {
      var (canSubmit, err) := storage.CheckComplaintLimit(barcode, now);
      if err.Some? {
        return Err(Wrapped("failed to check complaint limit", err.value));
      }
      if !canSubmit {
        return Err(Sentinel(LimitOneComplaintInOneHour));
      }
      var saved := storage.SaveComplaint(barcode, categoryId, message, now, answerReadFails);
      if saved.Err? {
        return Err(Wrapped("failed to save complaint", saved.error));
      }
      return Ok(saved.value.1);
    }

    /** GetAllComplaints: any store error is returned as it is, with no list. */
    method GetAllComplaints() returns (r: Result<seq<Complaint>>)
      requires storage.Valid()
      ensures storage.online && storage.complaints == map[] ==> r == Err(Sentinel(ComplaintNotFound))
      ensures !storage.online ==> r == Err(Wrapped("storage.postgres.GetComplaints", Driver(ConnectionFailure)))
      ensures storage.online && storage.complaints != map[] ==>
        r == Ok(SelectBelow(storage.complaints, storage.categories, All, storage.nextComplaintId))
    {
      var complaints := storage.GetComplaints();
      if complaints.Err? {
        return Err(complaints.error);
      }
      return complaints;
    }
  }
}

/**
  internal/service/complaints.go: the copy of ComplaintService without a
  context argument. Its two operations behave as in the older copy.
 */
module ContextFreeComplaintService {
  import opened Errors
  import opened Domain
  import opened Tables
  import opened Storage

  class Service {
    const storage: Database

    constructor (strg: Database)
      ensures storage == strg
    {
      storage := strg;
    }

    /** CreateComplaint: never saves when the gate errors or denies; success returns the saved answer. */
    method CreateComplaint(barcode: int, categoryId: int, message: string, now: int, answerReadFails: bool)
      returns (r: Result<string>)
      requires storage.Valid()
      modifies storage
      ensures storage.Valid()
      ensures var gate := old(storage.CheckComplaintLimit(barcode, now));
        gate.1.Some? ==> r == Err(Wrapped("failed to check complaint limit", gate.1.value)) && unchanged(storage)
      ensures (old(storage.online) &&
               exists id :: OwnedBy(old(storage.complaints), barcode, id) && now - old(storage.complaints)[id].createdAt < Hour) ==>
        r.Err? && Is(r.error, Sentinel(LimitOneComplaintInOneHour)) && unchanged(storage)
      ensures old(storage.CheckComplaintLimit(barcode, now)).0 ==>
        storage.categories == old(storage.categories) && storage.online == old(storage.online) &&
        storage.nextCategoryId == old(storage.nextCategoryId) &&
        storage.nextComplaintId == old(storage.nextComplaintId) + 1 &&
        (categoryId !in storage.categories ==>
          r == Err(Wrapped("failed to save complaint", Wrapped("failed to save complaint", Driver(ForeignKeyViolation)))) &&
          storage.complaints == old(storage.complaints)) &&
        (categoryId in storage.categories ==>
          storage.complaints == old(storage.complaints)[old(storage.nextComplaintId) := NewComplaintRow(barcode, categoryId, message, now)] &&
          (!answerReadFails ==> r == Ok(storage.categories[categoryId].answer)) &&
          (answerReadFails ==>
            r == Err(Wrapped("failed to save complaint", Wrapped("failed to get categories answer", Driver(ConnectionFailure))))))
      ensures r.Ok? ==> old(storage.CheckComplaintLimit(barcode, now)) == (true, None)
    {
      var (canSubmit, err) := storage.CheckComplaintLimit(barcode, now);
      if err.Some? {
        return Err(Wrapped("failed to check complaint limit", err.value));
      }
      if !canSubmit {
        return Err(Sentinel(LimitOneComplaintInOneHour));
      }
      var saved := storage.SaveComplaint(barcode, categoryId, message, now, answerReadFails);
      if saved.Err? {
        return Err(Wrapped("failed to save complaint", saved.error));
      }
      return Ok(saved.value.1);
    }

    /** GetAllComplaints: any store error is returned as it is, with no list. */
    method GetAllComplaints() returns (r: Result<seq<Complaint>>)
      requires storage.Valid()
      ensures storage.online && storage.complaints == map[] ==> r == Err(Sentinel(ComplaintNotFound))
      ensures !storage.online ==> r == Err(Wrapped("storage.postgres.GetComplaints", Driver(ConnectionFailure)))
      ensures storage.online && storage.complaints != map[] ==>
        r == Ok(SelectBelow(storage.complaints, storage.categories, All, storage.nextComplaintId))
    {
      var complaints := storage.GetComplaints();
      if complaints.Err? {
        return Err(complaints.error);
      }
      return complaints;
    }
  }
}
