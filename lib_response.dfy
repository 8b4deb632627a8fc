/**
  internal/lib/api/response/response.go: the JSON envelope {status, error}
  and its builders. The `errors` map is never filled and is left out.
 */
module LibResponse {
  import Text
  import SharedResponse

  datatype Response = Response(status: int, message: string)

  function OK(): (r: Response)
    ensures r.status == 200 && r.message == ""
  {
    Response(200, "")
  }

  function Error(msg: string, status: int): (r: Response)
    ensures r.status == status && r.message == msg
  {
    Response(status, msg)
  }

  /** ValidationError: status 400 and the failed fields' messages joined with ", " as the message. */
  method ValidationError(errs: seq<SharedResponse.FieldError>) returns (r: Response)
    ensures r.status == 400
    ensures r.message == Text.Join(SharedResponse.Messages(errs), ", ")
    ensures errs == [] ==> r.message == ""
  {
    var errorMsgs: seq<string> := [];
    for i := 0 to |errs|
      invariant |errorMsgs| == i
      invariant forall k :: 0 <= k < i ==> errorMsgs[k] == SharedResponse.FieldMessage(errs[k])
    {
      var e := errs[i];
      if e.tag == "required" {
        errorMsgs := errorMsgs + ["Field " + e.field + SharedResponse.RequiredSuffix];
      } else {
        errorMsgs := errorMsgs + ["Field " + e.field + SharedResponse.InvalidSuffix];
      }
    }
    assert errorMsgs == SharedResponse.Messages(errs);
    return Response(400, Text.Join(errorMsgs, ", "));
  }
}
