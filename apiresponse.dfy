/**
 * The envelope every API answer is wrapped in, and its factory functions. A field the
 * factory leaves unset is null, here None; the timestamp is the clock reading at creation.
 */
module ApiResponses {
  import opened Wrappers
  import opened Primitives

  datatype ApiResponse<T> = ApiResponse(
    isSuccess: bool,
    data: Option<T>,
    error: Option<string>,
    errors: Option<seq<string>>,
    timestamp: DateTime,
    traceId: Option<string>)

  /** `Ok(data)`: a success carrying the data and nothing else. */
  function Ok<T>(data: T, now: DateTime): (r: ApiResponse<T>)
    ensures r.isSuccess && r.data == Some(data)
    ensures r.error.None? && r.errors.None? && r.traceId.None? && r.timestamp == now
  {
    ApiResponse(true, Some(data), None, None, now, None)
  }

  /** `Fail(error, traceId)`: a failure with one message and no error list. */
  function Fail<T>(error: string, traceId: Option<string>, now: DateTime): (r: ApiResponse<T>)
    ensures !r.isSuccess && r.data.None?
    ensures r.error == Some(error) && r.errors.None? && r.traceId == traceId && r.timestamp == now
  {
    ApiResponse(false, None, Some(error), None, now, traceId)
  }

  const ValidationFailed := "Validation failed"

  /** `Fail(errors, error, traceId)`: a failure listing the errors in order; the message defaults to "Validation failed". */
  function FailAll<T>(errors: seq<string>, traceId: Option<string>, now: DateTime, error: string := ValidationFailed)
    : (r: ApiResponse<T>)
    ensures !r.isSuccess && r.data.None?
    ensures r.error == Some(error) && r.errors == Some(errors) && r.traceId == traceId && r.timestamp == now
  {
    ApiResponse(false, None, Some(error), Some(errors), now, traceId)
  }

  /** `FromException`: the friendly message when there is one, the exception's own otherwise, and its type name as the one error. */
  function FromException<T>(ex: Exception, traceId: Option<string>, now: DateTime, friendlyMessage: Option<string> := None)
    : (r: ApiResponse<T>)
    ensures !r.isSuccess && r.data.None?
    ensures friendlyMessage.Some? ==> r.error == friendlyMessage
    ensures friendlyMessage.None? ==> r.error == Some(Message(ex))
    ensures r.errors == Some([TypeName(ex)]) && r.traceId == traceId && r.timestamp == now
  {
    ApiResponse(false, None, Some(friendlyMessage.GetOr(Message(ex))), Some([TypeName(ex)]), now, traceId)
  }

  /** Only `Ok` builds a success: whatever the failure factories are given, the result is a failure without data. */
  lemma OnlyOkSucceeds<T>(data: T, error: string, errors: seq<string>, ex: Exception,
                          traceId: Option<string>, friendlyMessage: Option<string>, now: DateTime)
    ensures Ok(data, now).isSuccess
    ensures !Fail<T>(error, traceId, now).isSuccess
    ensures !FailAll<T>(errors, traceId, now, error).isSuccess
    ensures !FromException<T>(ex, traceId, now, friendlyMessage).isSuccess
  {
  }
}
