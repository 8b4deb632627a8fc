/**
  The records the core passes around (internal/domain in the repository),
  with the identifiers kept abstract as integers.
 */
module Domain {
  import opened Errors

  /** The default of the status column of the complaints table. */
  const StatusPending := "pending"
  /** domain.StatusApproved */
  const StatusApproved := "approved"
  /** domain.StatusRejected: note the capital letter the source stores. */
  const StatusRejected := "Rejected"

  /** The identifier no row ever receives (the zero UUID, uuid.Nil). */
  const NilId := 0

  datatype Category = Category(id: int, title: string, description: string, answer: string)

  /**
    A complaint as the repository returns it: joined with its category.
    `updatedAt` is None when the query did not select the column, which leaves
    Go's zero time in the struct; `answer` is None for SQL NULL.
   */
  datatype Complaint = Complaint(
    id: int,
    barcode: int,
    message: string,
    status: string,
    createdAt: int,
    updatedAt: Option<int>,
    answer: Option<string>,
    category: Category)
}
