/**
 * The global exception filter: any thrown value becomes an error response.
 * An HTTP exception supplies the status and, through its response body, the
 * message and optional details; anything else is a 500. A 500 never shows its
 * message to the client, and details are shown only outside production.
 */
module ExceptionFilter {
  import opened Wrappers
  import opened JsValue

  const InternalServerError: int := 500
  const InternalMessage: string := "Internal server error"
  const Production: string := "production"

  /** What was thrown: an `HttpException` with its status and response body, or anything else. */
  datatype Thrown = HttpException(status: int, response: Value) | OtherError

  datatype ErrorResponse = ErrorResponse(statusCode: int, message: Value, path: string, details: Option<Value>)

  /**
   * `GlobalExceptionFilter.catch`: the status, message and details are
   * assigned branch by branch, then the client response is shaped; `replyStatus`
   * is the status the reply is sent with.
   */
  method Catch(exception: Thrown, url: string, nodeEnv: Option<string>)
    returns (replyStatus: int, body: ErrorResponse)
    ensures replyStatus == body.statusCode
    ensures body.path == url
    ensures exception.OtherError? ==> body.statusCode == InternalServerError && body.details.None?
    ensures exception.HttpException? ==> body.statusCode == exception.status
    ensures body.statusCode == InternalServerError ==> body.message == Str(InternalMessage)
    ensures body.statusCode != InternalServerError && exception.HttpException? ==>
      body.message == (match exception.response
        case Str(s) => Str(s)
        case Obj(_) => Or(Property(exception.response, "message"), Str(InternalMessage))
        case Arr(_) => Or(Property(exception.response, "message"), Str(InternalMessage))
        case _ => Str(InternalMessage))
    ensures body.details.Some? <==>
      exception.HttpException? && (exception.response.Obj? || exception.response.Arr?)
      && nodeEnv != Some(Production) && Truthy(Property(exception.response, "details"))
    ensures body.details.Some? ==> body.details.value == Property(exception.response, "details")
  {
    var status := InternalServerError;
    var message := Str(InternalMessage);
    var details := Undefined;

    if exception.HttpException? {
      status := exception.status;
      var exceptionResponse := exception.response;
      if exceptionResponse.Str? {
        message := exceptionResponse;
      } else if exceptionResponse.Obj? || exceptionResponse.Arr? {
        message := Or(Property(exceptionResponse, "message"), message);
        details := Property(exceptionResponse, "details");
      }
    }

    var clientMessage := if status == InternalServerError then Str(InternalMessage) else message;
    var shownDetails := if nodeEnv != Some(Production) && Truthy(details) then Some(details) else None;
    body := ErrorResponse(status, clientMessage, url, shownDetails);
    replyStatus := status;
  }
}
