/**
  The two relational tables as maps from id to row, and the specification
  functions of the queries run against them: the joined selections, the
  category listing, and the latest creation time behind the rate gate.

  Result sets are produced in ascending id order, one admissible order for
  queries that have no ORDER BY.
 */
module Tables {
  import opened Errors
  import opened Domain

  /** One hour, in the seconds the model measures time in. */
  const Hour := 3600

  datatype CategoryRow = CategoryRow(title: string, description: string, answer: string)

  datatype ComplaintRow = ComplaintRow(
    barcode: int,
    categoryId: int,
    message: string,
    status: string,
    createdAt: int,
    updatedAt: int,
    answer: Option<string>)

  type CategoryTable = map<int, CategoryRow>
  type ComplaintTable = map<int, ComplaintRow>

  function CategoryOf(id: int, row: CategoryRow): Category
  {
    Category(id, row.title, row.description, row.answer)
  }

  /** The UNIQUE constraint on categories.title. */
  ghost predicate UniqueTitles(categories: CategoryTable)
  {
    forall a, b :: a in categories && b in categories && categories[a].title == categories[b].title ==> a == b
  }

  predicate TitleTaken(categories: CategoryTable, title: string)
  {
    exists id :: id in categories && categories[id].title == title
  }

  /** Some complaint row points at this category (the FOREIGN KEY would be violated by deleting it). */
  predicate Referenced(complaints: ComplaintTable, categoryId: int)
  {
    exists id :: id in complaints && complaints[id].categoryId == categoryId
  }

  // ---------------------------------------------------------------------------
  // Joined selections

  /** The WHERE clause of GetComplaints, GetComplaintsByCategoryId and GetComplaintsByBarcode. */
  datatype Filter = All | ByCategory(categoryId: int) | ByBarcode(barcode: int)

  predicate Matches(f: Filter, row: ComplaintRow)
  {
    match f
    case All => true
    case ByCategory(c) => row.categoryId == c
    case ByBarcode(b) => row.barcode == b
  }

  /** Row `id` passes the filter and survives the inner JOIN with its category. */
  predicate Selected(complaints: ComplaintTable, categories: CategoryTable, f: Filter, id: int)
  {
    id in complaints && Matches(f, complaints[id]) && complaints[id].categoryId in categories
  }

  /**
    The columns a selection reads into domain.Complaint. Only the barcode
    query selects updated_at.
   */
  function Project(complaints: ComplaintTable, categories: CategoryTable, f: Filter, id: int): Complaint
    requires Selected(complaints, categories, f, id)
  {
    var row := complaints[id];
    Complaint(id, row.barcode, row.message, row.status, row.createdAt,
              if f.ByBarcode? then Some(row.updatedAt) else None,
              row.answer, CategoryOf(row.categoryId, categories[row.categoryId]))
  }

  /** The selection restricted to ids in [0, n). */
  function SelectBelow(complaints: ComplaintTable, categories: CategoryTable, f: Filter, n: int): (r: seq<Complaint>)
    ensures forall i :: 0 <= i < |r| ==> 0 <= r[i].id < n
    ensures forall i, j :: 0 <= i < j < |r| ==> r[i].id < r[j].id
    decreases n
  {
    if n <= 0 then []
    else
      var rest := SelectBelow(complaints, categories, f, n - 1);
      if Selected(complaints, categories, f, n - 1)
      then rest + [Project(complaints, categories, f, n - 1)]
      else rest
  }

  /** A complaint is in the selection exactly when it is the projection of a selected row. */
  lemma {:induction false} SelectBelowMembers(complaints: ComplaintTable, categories: CategoryTable, f: Filter, n: int, c: Complaint)
    ensures c in SelectBelow(complaints, categories, f, n) <==>
      exists id :: 0 <= id < n && Selected(complaints, categories, f, id) && c == Project(complaints, categories, f, id)
    decreases n
  {
    if n > 0 {
      SelectBelowMembers(complaints, categories, f, n - 1, c);
    }
  }

  /** Every selected row appears in the selection. */
  lemma SelectBelowComplete(complaints: ComplaintTable, categories: CategoryTable, f: Filter, n: int, id: int)
    requires 0 <= id < n && Selected(complaints, categories, f, id)
    ensures Project(complaints, categories, f, id) in SelectBelow(complaints, categories, f, n)
  {
    SelectBelowMembers(complaints, categories, f, n, Project(complaints, categories, f, id));
  }

  /** The selection is empty exactly when no row below n is selected. */
  lemma SelectBelowEmpty(complaints: ComplaintTable, categories: CategoryTable, f: Filter, n: int)
    ensures SelectBelow(complaints, categories, f, n) == [] <==>
      forall id :: 0 <= id < n ==> !Selected(complaints, categories, f, id)
  {
    var r := SelectBelow(complaints, categories, f, n);
    if r != [] {
      SelectBelowMembers(complaints, categories, f, n, r[0]);
    }
    forall id | 0 <= id < n && Selected(complaints, categories, f, id)
      ensures r != []
    {
      SelectBelowComplete(complaints, categories, f, n, id);
    }
  }

  // ---------------------------------------------------------------------------
  // Category listing

  function CategoriesBelow(categories: CategoryTable, n: int): (r: seq<Category>)
    ensures forall i :: 0 <= i < |r| ==> 0 <= r[i].id < n && r[i].id in categories
    ensures forall i, j :: 0 <= i < j < |r| ==> r[i].id < r[j].id
    decreases n
  {
    if n <= 0 then []
    else
      var rest := CategoriesBelow(categories, n - 1);
      if n - 1 in categories then rest + [CategoryOf(n - 1, categories[n - 1])] else rest
  }

  /** The listing holds exactly the category rows with ids in [0, n). */
  lemma {:induction false} CategoriesBelowMembers(categories: CategoryTable, n: int, c: Category)
    ensures c in CategoriesBelow(categories, n) <==>
      0 <= c.id < n && c.id in categories && c == CategoryOf(c.id, categories[c.id])
    decreases n
  {
    if n > 0 {
      CategoriesBelowMembers(categories, n - 1, c);
    }
  }

  // ---------------------------------------------------------------------------
  // The rate gate's query: SELECT created_at ... WHERE barcode = $1 ORDER BY created_at DESC LIMIT 1

  predicate OwnedBy(complaints: ComplaintTable, barcode: int, id: int)
  {
    id in complaints && complaints[id].barcode == barcode
  }

  /** The latest created_at among the rows of `barcode` with ids in [0, n). */
  function LatestBelow(complaints: ComplaintTable, barcode: int, n: int): Option<int>
    decreases n
  {
    if n <= 0 then None
    else
      var rest := LatestBelow(complaints, barcode, n - 1);
      if OwnedBy(complaints, barcode, n - 1) then
        var t := complaints[n - 1].createdAt;
        Some(if rest.Some? && rest.value > t then rest.value else t)
      else rest
  }

  /** LatestBelow is the maximum creation time of the owner's rows, and None when there are none. */
  lemma {:induction false} LatestBelowIsMaximum(complaints: ComplaintTable, barcode: int, n: int)
    ensures LatestBelow(complaints, barcode, n).None? <==>
      forall id :: 0 <= id < n ==> !OwnedBy(complaints, barcode, id)
    ensures LatestBelow(complaints, barcode, n).Some? ==>
      (exists id :: 0 <= id < n && OwnedBy(complaints, barcode, id) &&
                    complaints[id].createdAt == LatestBelow(complaints, barcode, n).value) &&
      (forall id :: 0 <= id < n && OwnedBy(complaints, barcode, id) ==>
                    complaints[id].createdAt <= LatestBelow(complaints, barcode, n).value)
    decreases n
  {
    if n > 0 {
      LatestBelowIsMaximum(complaints, barcode, n - 1);
    }
  }

  /**
    The decision of CheckComplaintLimit on the outcome of its query: the
    latest creation time, or the query's error. When the query fails, Go's
    zero time is compared, which is always more than an hour ago.
   */
  function LimitDecision(lastCreated: Result<int>, now: int): (r: (bool, Option<Error>))
    ensures r.0 <==> r.1.None?
    ensures r.0 <==> (lastCreated.Err? && Is(lastCreated.error, Driver(NoRows))) ||
                     (lastCreated.Ok? && now - lastCreated.value >= Hour)
    ensures lastCreated.Ok? && now - lastCreated.value < Hour ==> r.1 == Some(Sentinel(LimitOneComplaintInOneHour))
    ensures lastCreated.Err? && !Is(lastCreated.error, Driver(NoRows)) ==>
      r.1 == Some(Wrapped("storage.postgres.CheckComplaintLimit", lastCreated.error))
  {
    if lastCreated.Err? && Is(lastCreated.error, Driver(NoRows)) then (true, None)
    else if lastCreated.Ok? && now - lastCreated.value < Hour then (false, Some(Sentinel(LimitOneComplaintInOneHour)))
    else if lastCreated.Err? then (false, Some(Wrapped("storage.postgres.CheckComplaintLimit", lastCreated.error)))
    else (true, None)
  }
}
