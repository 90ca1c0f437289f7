/**
 * `ExceptionHandlingMiddleware`: runs the rest of the pipeline and, when it raises, turns
 * the exception into a status code and an error envelope written to the response. The rest
 * of the pipeline is given by its outcome.
 */
module ExceptionHandling {
  import opened Wrappers
  import opened Primitives
  import opened ApiResponses

  const UnexpectedError := "An unexpected error occurred."

  /** `e => $"{e.PropertyName}: {e.ErrorMessage}"` over the failures, in order. */
  function FailureLines(errors: seq<ValidationFailure>): (lines: seq<string>)
    ensures |lines| == |errors|
    ensures forall i :: 0 <= i < |errors| ==> lines[i] == errors[i].propertyName + ": " + errors[i].errorMessage
  {
    seq(|errors|, i requires 0 <= i < |errors| => errors[i].propertyName + ": " + errors[i].errorMessage)
  }

  /** The catch clauses of `Invoke`: the status code and the envelope for an exception. */
  function Classify(ex: Exception, traceId: string, now: DateTime): (r: (int, ApiResponse<string>))
    ensures !r.1.isSuccess && r.1.traceId == Some(traceId)
    ensures r.0 in {400, 401, 403, 404, 500}
    ensures ex.ValidationException? ==>
      r.0 == 400 && r.1.error == Some(ValidationFailed) && r.1.errors == Some(FailureLines(ex.errors))
    ensures ex.NotFoundException? ==> r.0 == 404 && r.1.error == Some(ex.message) && r.1.errors.None?
    ensures ex.UnauthorizedException? ==> r.0 == 401 && r.1.error == Some(ex.message) && r.1.errors.None?
    ensures ex.ForbiddenException? ==> r.0 == 403 && r.1.error == Some(ex.message) && r.1.errors.None?
    ensures r.0 == 500 <==>
      !(ex.ValidationException? || ex.NotFoundException? || ex.UnauthorizedException? || ex.ForbiddenException?)
    ensures r.0 == 500 ==> r.1.error == Some(UnexpectedError) && r.1.errors == Some([TypeName(ex)])
  {
    match ex
    case ValidationException(errors) => (400, FailAll(FailureLines(errors), Some(traceId), now, ValidationFailed))
    case NotFoundException(message) => (404, Fail(message, Some(traceId), now))
    case UnauthorizedException(message) => (401, Fail(message, Some(traceId), now))
    case ForbiddenException(message) => (403, Fail(message, Some(traceId), now))
    case _ => (500, FromException(ex, Some(traceId), now, Some(UnexpectedError)))
  }

  /** The HTTP response of the current request, as far as the middleware touches it. */
  class HttpResponse {
    var statusCode: int
    var contentType: Option<string>
    /** The envelopes written to the body, in order. */
    var written: seq<ApiResponse<string>>

    constructor()
      ensures statusCode == 200 && contentType.None? && written == []
    {
      statusCode := 200;
      contentType := None;
      written := [];
    }

    /** `WriteResponse`: sets the status and the JSON content type, then writes the envelope. */
    method WriteResponse(statusCode: int, response: ApiResponse<string>)
      modifies this
      ensures this.statusCode == statusCode && contentType == Some("application/json")
      ensures written == old(written) + [response]
    {
      this.statusCode := statusCode;
      contentType := Some("application/json");
      written := written + [response];
    }
  }

  /**
   * `Invoke`, given what the rest of the pipeline did: a normal completion leaves the
   * response alone; an exception is classified and written.
   */
  method Invoke(response: HttpResponse, next: Result<(), Exception>, traceId: string, now: DateTime)
    modifies response
    ensures next.Success? ==>
      response.statusCode == old(response.statusCode) && response.contentType == old(response.contentType)
      && response.written == old(response.written)
    ensures next.Failure? ==>
      && response.statusCode == Classify(next.error, traceId, now).0
      && response.contentType == Some("application/json")
      && response.written == old(response.written) + [Classify(next.error, traceId, now).1]
  {
    if next.Failure? {
      var (status, body) := Classify(next.error, traceId, now);
      response.WriteResponse(status, body);
    }
  }
}
