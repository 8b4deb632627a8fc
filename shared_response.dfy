/**
  internal/shared/api/response/response.go: the JSON envelope
  {statusCode, message, data} and its builders. The handlers that render
  responses with StatusCode, Message and Data write this envelope.
 */
module SharedResponse {
  import Text
  import Domain

  /** validator.FieldError as the builders read it: Field() and ActualTag(). */
  datatype FieldError = FieldError(field: string, tag: string)

  /** The values the handlers put under `data`. */
  datatype Payload =
    | NoData
    | ErrorsText(errors: string)            // {"errors": "..."}
    | FieldErrors(list: seq<FieldError>)    // validator.ValidationErrors as they are
    | ComplaintData(complaint: Domain.Complaint)
    | CategoryId(id: int)                   // {"id": ...}

  datatype Response = Response(statusCode: int, message: string, data: Payload)

  /** What a handler sends: http.Error's plain text with a status, or a JSON envelope with status 200. */
  datatype Reply = PlainError(status: int, text: string) | Json(body: Response)

  function Error(msg: string, status: int): (r: Response)
    ensures r.statusCode == status && r.message == msg && r.data == NoData
  {
    Response(status, msg, NoData)
  }

  const RequiredSuffix := " is a required field"
  const InvalidSuffix := " is not valid"

  /** The message for one failed field, chosen by its tag. */
  function FieldMessage(e: FieldError): string
  {
    "Field " + e.field + (if e.tag == "required" then RequiredSuffix else InvalidSuffix)
  }

  /** The messages of the failed fields, in input order. */
  function Messages(errs: seq<FieldError>): (ms: seq<string>)
    ensures |ms| == |errs|
    ensures forall i :: 0 <= i < |errs| ==> ms[i] == FieldMessage(errs[i])
  {
    seq(|errs|, i requires 0 <= i < |errs| => FieldMessage(errs[i]))
  }

  /** ValidationError: status 400, message "Validation failed", the joined messages under data.errors. */
  method ValidationError(errs: seq<FieldError>) returns (r: Response)
    ensures r.statusCode == 400 && r.message == "Validation failed"
    ensures r.data == ErrorsText(Text.Join(Messages(errs), ", "))
  {
    var errorMsgs: seq<string> := [];
    for i := 0 to |errs|
      invariant |errorMsgs| == i
      invariant forall k :: 0 <= k < i ==> errorMsgs[k] == FieldMessage(errs[k])
    {
      var e := errs[i];
      if e.tag == "required" {
        errorMsgs := errorMsgs + ["Field " + e.field + RequiredSuffix];
      } else {
        errorMsgs := errorMsgs + ["Field " + e.field + InvalidSuffix];
      }
    }
    assert errorMsgs == Messages(errs);
    return Response(400, "Validation failed", ErrorsText(Text.Join(errorMsgs, ", ")));
  }
}
