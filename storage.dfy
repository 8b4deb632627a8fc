/**
  The PostgreSQL repository (internal/storage/pg): complaintRepo over the
  complaints table and Storage's category methods over the categories
  table. Both tables live in one database object, because the foreign key
  from complaints.category_id to categories spans them.

  The driver is kept abstract: `online` false means every query fails with a
  connection error. A method that runs a write and then a further statement
  takes a flag saying whether that later statement fails (a connection lost
  between the two), so the error-after-write paths are part of the model.
  `now` stands for CURRENT_TIMESTAMP and time.Now().

  A failed INSERT still draws its value from the SERIAL sequence, as
  PostgreSQL's nextval is not rolled back.
 */
module Storage {
  import opened Errors
  import opened Domain
  import opened Tables
  import Text

  class Database {
    var categories: CategoryTable
    var complaints: ComplaintTable
    /** The next value of each table's SERIAL id sequence. */
    var nextCategoryId: int
    var nextComplaintId: int
    var online: bool

    /** The schema's constraints, plus ids handed out by the sequences. */
    ghost predicate Valid()
      reads this
    {
      && 1 <= nextCategoryId && 1 <= nextComplaintId
      && (forall id :: id in categories ==> 1 <= id < nextCategoryId)
      && (forall id :: id in complaints ==> 1 <= id < nextComplaintId)
      && (forall id :: id in complaints ==> complaints[id].categoryId in categories)
      && UniqueTitles(categories)
    }

    constructor (online: bool)
      ensures Valid()
      ensures categories == map[] && complaints == map[] && this.online == online
    {
      categories, complaints := map[], map[];
      nextCategoryId, nextComplaintId := 1, 1;
      this.online := online;
    }

    // -------------------------------------------------------------------------
    // internal/storage/pg/categories.go

    /** GetCategories: every category row; an empty table is an empty list, not an error. */
    method GetCategories() returns (r: Result<seq<Category>>)
      requires Valid()
      ensures !online ==> r == Err(Wrapped("storage.category.GetCategories", Driver(ConnectionFailure)))
      ensures online ==> r.Ok? && r.value == CategoriesBelow(categories, nextCategoryId)
      ensures online && categories == map[] ==> r == Ok([])
    {
      if !online {
        return Err(Wrapped("storage.category.GetCategories", Driver(ConnectionFailure)));
      }
      var rows: seq<Category> := [];
      var id := 0;
      while id < nextCategoryId
        invariant 0 <= id <= nextCategoryId
        invariant rows == CategoriesBelow(categories, id)
      {
        if id in categories {
          rows := rows + [CategoryOf(id, categories[id])];
        }
        id := id + 1;
      }
      if categories == map[] {
        assert rows == [] by {
          if rows != [] {
            CategoriesBelowMembers(categories, nextCategoryId, rows[0]);
          }
        }
      }
      return Ok(rows);
    }

    /** GetCategoryById: an absent id is the driver's wrapped no-rows error, not ErrCategoryNotFound. */
    function GetCategoryById(id: int): (r: Result<Category>)
      reads this
      ensures r.Ok? <==> online && id in categories
      ensures r.Ok? ==> r.value.id == id && r.value == CategoryOf(id, categories[id])
      ensures online && id !in categories ==>
        r == Err(Wrapped("storage.category.GetCategoryById", Driver(NoRows))) &&
        !Is(r.error, Sentinel(CategoryNotFound))
    {
      if !online then Err(Wrapped("storage.category.GetCategoryById", Driver(ConnectionFailure)))
      else if id !in categories then Err(Wrapped("storage.category.GetCategoryById", Driver(NoRows)))
      else Ok(CategoryOf(id, categories[id]))
    }

    /** CreateCategory: inserts one row under a fresh id; a duplicate title violates UNIQUE. */
    method CreateCategory(category: Category) returns (r: Result<int>)
      requires Valid()
      modifies this
      ensures Valid()
      ensures complaints == old(complaints) && nextComplaintId == old(nextComplaintId) && online == old(online)
      ensures !old(online) ==>
        r == Err(Wrapped("storage.category.CreateCategory: failed to save category", Driver(ConnectionFailure))) &&
        categories == old(categories) && nextCategoryId == old(nextCategoryId)
      ensures old(online) && TitleTaken(old(categories), category.title) ==>
        r == Err(Wrapped("storage.category.CreateCategory: failed to save category", Driver(UniqueViolation))) &&
        categories == old(categories) && nextCategoryId == old(nextCategoryId) + 1
      ensures old(online) && !TitleTaken(old(categories), category.title) ==>
        r == Ok(old(nextCategoryId)) && old(nextCategoryId) !in old(categories) &&
        categories == old(categories)[old(nextCategoryId) := CategoryRow(category.title, category.description, category.answer)] &&
        nextCategoryId == old(nextCategoryId) + 1
    {
      if !online {
        return Err(Wrapped("storage.category.CreateCategory: failed to save category", Driver(ConnectionFailure)));
      }
      if TitleTaken(categories, category.title) {
        nextCategoryId := nextCategoryId + 1;
        return Err(Wrapped("storage.category.CreateCategory: failed to save category", Driver(UniqueViolation)));
      }
      var id := nextCategoryId;
      categories := categories[id := CategoryRow(category.title, category.description, category.answer)];
      nextCategoryId := id + 1;
      return Ok(id);
    }

    /**
      DeleteCategoryById: no rows-affected check, so an absent id succeeds;
      a category still referenced by a complaint stays, by the foreign key.
     */
    method DeleteCategoryById(id: int) returns (err: Option<Error>)
      requires Valid()
      modifies this
      ensures Valid()
      ensures complaints == old(complaints) && online == old(online)
      ensures nextCategoryId == old(nextCategoryId) && nextComplaintId == old(nextComplaintId)
      ensures !old(online) ==>
        err == Some(Wrapped("storage.category.DeleteCategoryById: failed to delete category", Driver(ConnectionFailure))) &&
        categories == old(categories)
      ensures old(online) && Referenced(old(complaints), id) ==>
        err == Some(Wrapped("storage.category.DeleteCategoryById: failed to delete category", Driver(ForeignKeyViolation))) &&
        categories == old(categories) && id in categories
      ensures old(online) && !Referenced(old(complaints), id) ==>
        err == None && categories == old(categories) - {id}
    {
      if !online {
        return Some(Wrapped("storage.category.DeleteCategoryById: failed to delete category", Driver(ConnectionFailure)));
      }
      if Referenced(complaints, id) {
        return Some(Wrapped("storage.category.DeleteCategoryById: failed to delete category", Driver(ForeignKeyViolation)));
      }
      categories := categories - {id};
      return None;
    }

    // -------------------------------------------------------------------------
    // internal/storage/pg/complaints.go

    /**
      SaveComplaint: inserts one row (status pending) and returns its id with
      its category's answer. When the answer's SELECT fails after the INSERT,
      the row stays stored and the error is returned all the same.
     */
    method SaveComplaint(barcode: int, categoryId: int, message: string, now: int, answerReadFails: bool)
      returns (r: Result<(int, string)>)
      requires Valid()
      modifies this
      ensures Valid()
      ensures categories == old(categories) && nextCategoryId == old(nextCategoryId) && online == old(online)
      ensures !old(online) ==>
        r == Err(Wrapped("failed to save complaint", Driver(ConnectionFailure))) &&
        complaints == old(complaints) && nextComplaintId == old(nextComplaintId)
      ensures old(online) && categoryId !in categories ==>
        r == Err(Wrapped("failed to save complaint", Driver(ForeignKeyViolation))) &&
        complaints == old(complaints) && nextComplaintId == old(nextComplaintId) + 1
      ensures old(online) && categoryId in categories ==>
        old(nextComplaintId) !in old(complaints) &&
        complaints == old(complaints)[old(nextComplaintId) := NewComplaintRow(barcode, categoryId, message, now)] &&
        nextComplaintId == old(nextComplaintId) + 1 &&
        (!answerReadFails ==> r == Ok((old(nextComplaintId), categories[categoryId].answer))) &&
        (answerReadFails ==> r == Err(Wrapped("failed to get categories answer", Driver(ConnectionFailure))))
      ensures r.Ok? <==> old(online) && categoryId in categories && !answerReadFails
    {
      if !online {
        return Err(Wrapped("failed to save complaint", Driver(ConnectionFailure)));
      }
      if categoryId !in categories {
        nextComplaintId := nextComplaintId + 1;
        return Err(Wrapped("failed to save complaint", Driver(ForeignKeyViolation)));
      }
      var id := nextComplaintId;
      complaints := complaints[id := NewComplaintRow(barcode, categoryId, message, now)];
      nextComplaintId := id + 1;
      // SELECT answer FROM categories WHERE uuid = $1
      if answerReadFails {
        return Err(Wrapped("failed to get categories answer", Driver(ConnectionFailure)));
      }
      return Ok((id, categories[categoryId].answer));
    }

    /** IsOwnerOfComplaint: ErrComplaintNotFound for an absent id, otherwise whether the barcodes agree. */
    function IsOwnerOfComplaint(id: int, barcode: int): (r: Result<bool>)
      reads this
      ensures r == Ok(true) <==> online && id in complaints && complaints[id].barcode == barcode
      ensures r == Ok(false) <==> online && id in complaints && complaints[id].barcode != barcode
      ensures online && id !in complaints ==> r == Err(Sentinel(ComplaintNotFound))
      ensures !online ==> r.Err? && !Is(r.error, Sentinel(ComplaintNotFound))
    {
      if !online then Err(Wrapped("failed to check complaint ownership", Driver(ConnectionFailure)))
      else if id !in complaints then Err(Sentinel(ComplaintNotFound))
      else Ok(complaints[id].barcode == barcode)
    }

    /**
      GetComplaintByUUID: the row joined with its category; an absent id is
      ErrComplaintNotFound and every other failure becomes ErrScanFailure.
     */
    function GetComplaintByUUID(id: int): (r: Result<Complaint>)
      reads this
      requires Valid()
      ensures r.Ok? <==> online && id in complaints
      ensures r.Ok? ==> Selected(complaints, categories, All, id) && r.value == Project(complaints, categories, All, id)
      ensures r.Ok? ==> r.value.id == id && r.value.category.id == complaints[id].categoryId
      ensures online && id !in complaints ==> r == Err(Sentinel(ComplaintNotFound))
      ensures !online ==> r == Err(Sentinel(ScanFailure))
    {
      if !online then Err(Sentinel(ScanFailure))
      else if !Selected(complaints, categories, All, id) then Err(Sentinel(ComplaintNotFound))
      else Ok(Project(complaints, categories, All, id))
    }

    /** The `for rows.Next()` loop shared by the three list queries: appends each joined row. */
    method ScanRows(f: Filter) returns (rows: seq<Complaint>)
      requires Valid()
      ensures rows == SelectBelow(complaints, categories, f, nextComplaintId)
    {
      rows := [];
      var id := 0;
      while id < nextComplaintId
        invariant 0 <= id <= nextComplaintId
        invariant rows == SelectBelow(complaints, categories, f, id)
      {
        if Selected(complaints, categories, f, id) {
          rows := rows + [Project(complaints, categories, f, id)];
        }
        id := id + 1;
      }
    }

    /** GetComplaints: every complaint joined with its category; an empty table is ErrComplaintNotFound. */
    method GetComplaints() returns (r: Result<seq<Complaint>>)
      requires Valid()
      ensures !online ==> r == Err(Wrapped("storage.postgres.GetComplaints", Driver(ConnectionFailure)))
      ensures online && complaints == map[] ==> r == Err(Sentinel(ComplaintNotFound))
      ensures online && complaints != map[] ==> r.Ok? && r.value == SelectBelow(complaints, categories, All, nextComplaintId)
      ensures r.Ok? ==> forall c :: c in r.value <==>
        exists id :: Selected(complaints, categories, All, id) && c == Project(complaints, categories, All, id)
    {
      if !online {
        return Err(Wrapped("storage.postgres.GetComplaints", Driver(ConnectionFailure)));
      }
      var rows := ScanRows(All);
      SelectBelowEmpty(complaints, categories, All, nextComplaintId);
      if rows == [] {
        assert complaints == map[] by {
          forall id | id in complaints ensures false {
            assert Selected(complaints, categories, All, id);
          }
        }
        return Err(Sentinel(ComplaintNotFound));
      }
      assert complaints != map[];
      RowsAreSelection(All, rows);
      return Ok(rows);
    }

    /** GetComplaintsByCategoryId: exactly the rows of that category; none is an empty list, not an error. */
    method GetComplaintsByCategoryId(categoryId: int) returns (r: Result<seq<Complaint>>)
      requires Valid()
      ensures !online ==> r == Err(Wrapped("storage.postgres.GetComplaintsByCategory", Driver(ConnectionFailure)))
      ensures online ==> r.Ok? && r.value == SelectBelow(complaints, categories, ByCategory(categoryId), nextComplaintId)
      ensures r.Ok? ==> forall c :: c in r.value <==>
        exists id :: id in complaints && complaints[id].categoryId == categoryId &&
                     c == Project(complaints, categories, ByCategory(categoryId), id)
    {
      if !online {
        return Err(Wrapped("storage.postgres.GetComplaintsByCategory", Driver(ConnectionFailure)));
      }
      var rows := ScanRows(ByCategory(categoryId));
      RowsAreSelection(ByCategory(categoryId), rows);
      return Ok(rows);
    }

    /** GetComplaintsByBarcode: exactly the rows of that barcode, with updated_at; the driver's error unwrapped. */
    method GetComplaintsByBarcode(barcode: int) returns (r: Result<seq<Complaint>>)
      requires Valid()
      ensures !online ==> r == Err(Driver(ConnectionFailure))
      ensures online ==> r.Ok? && r.value == SelectBelow(complaints, categories, ByBarcode(barcode), nextComplaintId)
      ensures r.Ok? ==> forall c :: c in r.value <==>
        exists id :: id in complaints && complaints[id].barcode == barcode &&
                     c == Project(complaints, categories, ByBarcode(barcode), id)
      ensures r.Ok? ==> forall c :: c in r.value ==> c.barcode == barcode && c.updatedAt.Some?
    {
      if !online {
        return Err(Driver(ConnectionFailure));
      }
      var rows := ScanRows(ByBarcode(barcode));
      RowsAreSelection(ByBarcode(barcode), rows);
      return Ok(rows);
    }

    /** Under the schema constraints the selection below the id counter is the whole filtered table. */
    lemma RowsAreSelection(f: Filter, rows: seq<Complaint>)
      requires Valid()
      requires rows == SelectBelow(complaints, categories, f, nextComplaintId)
      ensures forall c :: c in rows <==>
        exists id :: Selected(complaints, categories, f, id) && c == Project(complaints, categories, f, id)
    {
      forall c ensures c in rows <==>
        exists id :: Selected(complaints, categories, f, id) && c == Project(complaints, categories, f, id)
      {
        SelectBelowMembers(complaints, categories, f, nextComplaintId, c);
      }
    }

    /** The rate gate's query: the latest created_at of the barcode's complaints, or the driver's error. */
    function LastCreatedAt(barcode: int): (r: Result<int>)
      reads this
      requires Valid()
      ensures r.Ok? ==> online && exists id :: OwnedBy(complaints, barcode, id) && complaints[id].createdAt == r.value
      ensures r.Ok? ==> forall id :: OwnedBy(complaints, barcode, id) ==> complaints[id].createdAt <= r.value
      ensures online && r.Err? ==> r == Err(Driver(NoRows)) && forall id :: !OwnedBy(complaints, barcode, id)
      ensures !online ==> r == Err(Driver(ConnectionFailure))
    {
      LatestBelowIsMaximum(complaints, barcode, nextComplaintId);
      if !online then Err(Driver(ConnectionFailure))
      else match LatestBelow(complaints, barcode, nextComplaintId)
        case None => Err(Driver(NoRows))
        case Some(t) => Ok(t)
    }

    /**
      CheckComplaintLimit: true with no prior complaint or when the latest one
      is an hour old or more; false with ErrLimitOneComplaintInOneHour when it
      is younger. Denial always carries an error.
     */
    function CheckComplaintLimit(barcode: int, now: int): (r: (bool, Option<Error>))
      reads this
      requires Valid()
      ensures r.0 <==> r.1.None?
      ensures r.0 <==> online && forall id :: OwnedBy(complaints, barcode, id) ==> now - complaints[id].createdAt >= Hour
      ensures online && (exists id :: OwnedBy(complaints, barcode, id) && now - complaints[id].createdAt < Hour) ==>
        r == (false, Some(Sentinel(LimitOneComplaintInOneHour)))
      ensures !online ==> r == (false, Some(Wrapped("storage.postgres.CheckComplaintLimit", Driver(ConnectionFailure))))
    {
      LimitDecision(LastCreatedAt(barcode), now)
    }

    /** UpdateComplaintStatus: changes only status, answer and updated_at of the one row. */
    method UpdateComplaintStatus(id: int, status: string, answer: string, now: int) returns (err: Option<Error>)
      requires Valid()
      modifies this
      ensures Valid()
      ensures categories == old(categories) && online == old(online)
      ensures nextCategoryId == old(nextCategoryId) && nextComplaintId == old(nextComplaintId)
      ensures !old(online) ==>
        err == Some(Wrapped("storage.postgres.UpdateComplaintStatus", Driver(ConnectionFailure))) && complaints == old(complaints)
      ensures old(online) && id !in old(complaints) ==>
        err == Some(Sentinel(ComplaintNotFound)) && complaints == old(complaints)
      ensures old(online) && id in old(complaints) ==>
        err == None &&
        complaints == old(complaints)[id := old(complaints)[id].(status := status, answer := Some(answer), updatedAt := now)]
    {
      if !online {
        return Some(Wrapped("storage.postgres.UpdateComplaintStatus", Driver(ConnectionFailure)));
      }
      if id !in complaints {
        return Some(Sentinel(ComplaintNotFound));
      }
      complaints := complaints[id := complaints[id].(status := status, answer := Some(answer), updatedAt := now)];
      return None;
    }

    /**
      DeleteComplaint: removes the row. RowsAffected is read before the error,
      so a failed Exec (zero rows affected), whether the database was down
      from the start or the DELETE itself fails, is also reported as
      ErrComplaintNotFound.
     */
    method DeleteComplaint(id: int, execFails: bool) returns (err: Option<Error>)
      requires Valid()
      modifies this
      ensures Valid()
      ensures categories == old(categories) && online == old(online)
      ensures nextCategoryId == old(nextCategoryId) && nextComplaintId == old(nextComplaintId)
      ensures err.None? <==> old(online) && !execFails && id in old(complaints)
      ensures err.Some? ==> err == Some(Sentinel(ComplaintNotFound)) && complaints == old(complaints)
      ensures err.None? ==> complaints == old(complaints) - {id} && id !in complaints
    {
      if !online || execFails || id !in complaints {
        return Some(Sentinel(ComplaintNotFound));
      }
      complaints := complaints - {id};
      return None;
    }

    /**
      UpdateComplaint: overwrites barcode, category, message, status, answer and
      updated_at, keeps created_at, and returns the row as read back. When
      the read-back fails after the UPDATE, the row stays changed and the
      error is returned.
     */
    method UpdateComplaint(id: int, complaint: Complaint, now: int, rereadFails: bool) returns (r: Result<Complaint>)
      requires Valid()
      modifies this
      ensures Valid()
      ensures categories == old(categories) && online == old(online)
      ensures nextCategoryId == old(nextCategoryId) && nextComplaintId == old(nextComplaintId)
      ensures !old(online) ==>
        r == Err(Wrapped("storage.postgres.UpdateComplaint", Driver(ConnectionFailure))) && complaints == old(complaints)
      ensures old(online) && id !in old(complaints) ==>
        r == Err(Sentinel(ComplaintNotFound)) && complaints == old(complaints)
      ensures old(online) && id in old(complaints) && complaint.category.id !in categories ==>
        r == Err(Plain("categories with id " + Text.Itoa(complaint.category.id) + " does not exist")) &&
        complaints == old(complaints)
      ensures old(online) && id in old(complaints) && complaint.category.id in categories ==>
        complaints == old(complaints)[id := UpdatedRow(old(complaints)[id], complaint, now)] &&
        (rereadFails ==> r == Err(Wrapped("storage.postgres.UpdateComplaint", Driver(ConnectionFailure)))) &&
        (!rereadFails ==>
          r == Ok(Complaint(id, complaint.barcode, complaint.message, complaint.status,
                            old(complaints)[id].createdAt, Some(now), Some(AnswerText(complaint.answer)),
                            CategoryOf(complaint.category.id, categories[complaint.category.id]))))
      ensures r.Ok? <==> old(online) && id in old(complaints) && complaint.category.id in categories && !rereadFails
    {
      if !online {
        return Err(Wrapped("storage.postgres.UpdateComplaint", Driver(ConnectionFailure)));
      }
      if id !in complaints {
        return Err(Sentinel(ComplaintNotFound));
      }
      var categoryId := complaint.category.id;
      if categoryId !in categories {
        return Err(Plain("categories with id " + Text.Itoa(categoryId) + " does not exist"));
      }
      complaints := complaints[id := UpdatedRow(complaints[id], complaint, now)];
      // SELECT ... FROM complaints c JOIN categories cat ... WHERE c.uuid = $1
      if rereadFails {
        return Err(Wrapped("storage.postgres.UpdateComplaint", Driver(ConnectionFailure)));
      }
      var row := complaints[id];
      return Ok(Complaint(id, row.barcode, row.message, row.status, row.createdAt, Some(row.updatedAt),
                          row.answer, CategoryOf(row.categoryId, categories[row.categoryId])));
    }
  }

  /** The row INSERT INTO complaints creates: status and timestamps take their column defaults. */
  function NewComplaintRow(barcode: int, categoryId: int, message: string, now: int): ComplaintRow
  {
    ComplaintRow(barcode, categoryId, message, StatusPending, now, now, None)
  }

  /** sql.NullString.String: the text, or "" for NULL. */
  function AnswerText(answer: Option<string>): string
  {
    if answer.Some? then answer.value else ""
  }

  /** The row after UpdateComplaint's UPDATE statement: created_at is the only column kept. */
  function UpdatedRow(old_: ComplaintRow, complaint: Complaint, now: int): (r: ComplaintRow)
    ensures r.createdAt == old_.createdAt && r.updatedAt == now
  {
    ComplaintRow(complaint.barcode, complaint.category.id, complaint.message, complaint.status,
                 old_.createdAt, now, Some(AnswerText(complaint.answer)))
  }
}
