/** The HTTP layer's error value and the response it becomes: a status, a message and
    optional details, answered as `{"success": false, "error": message}` plus a `details`
    member when there are details. */
module HttpApi {
  import opened Errors
  import opened Text
  import opened Json

  const BadRequestStatus: nat := 400
  const InternalServerErrorStatus: nat := 500

  datatype ApiError = ApiError(status: nat, message: string, details: Option<string>)

  /** What a handler answers: its value, or an error turned into a response. */
  datatype Answer<+T> = Answered(value: T) | Refused(error: ApiError)

  function BadRequest(message: string): (r: ApiError)
    ensures r.status == 400 && r.message == message && r.details == None
  {
    ApiError(BadRequestStatus, message, None)
  }

  function InternalError(message: string): (r: ApiError)
    ensures r.status == 500 && r.message == message && r.details == None
  {
    ApiError(InternalServerErrorStatus, message, None)
  }

  /** `with_details` takes the error by value and hands it back with its details set, so it
      is an update of a value. */
  function WithDetails(err: ApiError, details: string): (r: ApiError)
    ensures r.status == err.status && r.message == err.message && r.details == Some(details)
  {
    err.(details := Some(details))
  }

  /** `From<anyhow::Error>`: status 500, the outermost message, and the rest of the chain
      joined by " -> " as details when there is a rest. */
  function FromError(err: Error): (r: ApiError)
    ensures r.status == 500 && r.message == err.Chain()[0]
    ensures r.details.Some? <==> |err.Chain()| > 1
    ensures r.details.Some? ==> r.details.value == Join(err.Chain()[1..], " -> ")
  {
    ApiError(InternalServerErrorStatus, err.message,
             if |err.causes| > 0 then Some(Join(err.causes, " -> ")) else None)
  }

  /** An error given a context answers with the context as message and the whole chain of
      the error beneath it as details. */
  lemma FromContext(err: Error, context: string)
    ensures FromError(Context(err, context)) == ApiError(500, context, Some(Join(err.Chain(), " -> ")))
  {
  }

  /** `From<ValidationErrors>`: status 400 with the validator's rendering of the errors. */
  function FromValidation(rendered: string): (r: ApiError)
    ensures r.status == 400 && r.message == rendered && r.details == None
  {
    ApiError(BadRequestStatus, rendered, None)
  }

  datatype Response = Response(status: nat, body: Json)

  /** `IntoResponse for ApiError`. */
  method IntoResponse(err: ApiError) returns (r: Response)
    ensures r.status == err.status && r.body.Obj?
    ensures Get(r.body, "success") == Some(Bool(false))
    ensures Get(r.body, "error") == Some(Str(err.message))
    ensures err.details.None? ==> Get(r.body, "details") == None
    ensures err.details.Some? ==> Get(r.body, "details") == Some(Str(err.details.value))
  {
    var body := [("success", Bool(false)), ("error", Str(err.message))];
    LookupAt(body, 0, "success");
    LookupAt(body, 1, "error");
    if err.details.Some? {
      body := SetMember(body, "details", Str(err.details.value));
    }
    r := Response(err.status, Obj(body));
  }
}
