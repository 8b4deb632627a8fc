/**
  internal/http-server/handlers/category/update/update.go: an administrator
  rewrites a category. The body is validated (title, description and answer
  are required), the path id must be present, and after a successful update
  the cached category listing is removed.

  The update itself goes through CategoryService.UpdateCategory to the
  repository's UpdateCategory, which is not part of this model: it is the
  function `updateCategory`, and the table it changes is not modelled.
 */
module CategoryUpdate {
  import opened Errors
  import opened Domain
  import Text
  import opened Http
  import opened CacheStore
  import opened SharedResponse

  const ListingKey := "cache:/categories"

  /** The request body: `id` is the category id the body claims, not the path's. */
  datatype CategoryRequest = CategoryRequest(id: int, title: string, description: string, answer: string)

  /** validator.Struct on the request: one `required` error per empty field, in declaration order. */
  function Validate(req: CategoryRequest): (errs: seq<FieldError>)
    ensures errs == [] <==> req.title != "" && req.description != "" && req.answer != ""
    ensures forall i :: 0 <= i < |errs| ==> errs[i].tag == "required"
    ensures (FieldError("Title", "required") in errs <==> req.title == "") &&
            (FieldError("Description", "required") in errs <==> req.description == "") &&
            (FieldError("Answer", "required") in errs <==> req.answer == "")
    ensures |errs| <= 3
  {
    (if req.title == "" then [FieldError("Title", "required")] else []) +
    (if req.description == "" then [FieldError("Description", "required")] else []) +
    (if req.answer == "" then [FieldError("Answer", "required")] else [])
  }

  /**
    The id the update runs with: uuid.Parse's error is overwritten, leaving
    the id it left behind. That is the zero id for a wrong length or format.
    A partly filled id after a bad hex digit has no counterpart among
    decimal ids.
   */
  function CategoryIdOf(idParam: string): int
  {
    match Text.ParseDecimal(idParam)
    case Some(id) => id
    case None => NilId
  }

  function CategoryOfRequest(req: CategoryRequest): Category
  {
    Category(req.id, req.title, req.description, req.answer)
  }

  method Update(redis: Redis, updateCategory: (int, Category) -> Result<int>, idParam: string, body: Option<CategoryRequest>)
    returns (reply: Response)
    modifies redis
    ensures redis.online == old(redis.online)
    ensures body.None? ==> reply == Response(StatusBadRequest, "Failed to decode request body", NoData)
    ensures body.Some? && Validate(body.value) != [] ==>
      reply == Response(StatusBadRequest, "Validation failed", FieldErrors(Validate(body.value)))
    ensures body.Some? && Validate(body.value) == [] && idParam == "" ==>
      reply == Response(StatusBadRequest, "Missing category id", NoData)
    ensures reply.statusCode == StatusOK <==>
      body.Some? && Validate(body.value) == [] && idParam != "" &&
      updateCategory(CategoryIdOf(idParam), CategoryOfRequest(body.value)).Ok?
    ensures reply.statusCode == StatusOK ==>
      reply == Response(StatusOK, "Category updated successfully", CategoryId(body.value.id)) &&
      redis.entries == (if redis.online then old(redis.entries) - {ListingKey} else old(redis.entries))
    ensures reply.statusCode != StatusOK ==> redis.entries == old(redis.entries)
    ensures body.Some? && Validate(body.value) == [] && idParam != "" && !(reply.statusCode == StatusOK) ==>
      reply == Response(StatusInternalServerError, "Failed to update category", NoData)
  {
    if body.None? {
      return Response(StatusBadRequest, "Failed to decode request body", NoData);
    }
    var req := body.value;
    var errs := Validate(req);
    if errs != [] {
      return Response(StatusBadRequest, "Validation failed", FieldErrors(errs));
    }
    if idParam == "" {
      return Response(StatusBadRequest, "Missing category id", NoData);
    }
    var id := CategoryIdOf(idParam);
    var updated := updateCategory(id, CategoryOfRequest(req));
    if updated.Err? {
      return Response(StatusInternalServerError, "Failed to update category", NoData);
    }
    var err := redis.Del(ListingKey);
    return Response(StatusOK, "Category updated successfully", CategoryId(req.id));
  }
}
