/** `AllExceptionsFilter`: turns any exception that reaches it into a JSON
    error response, keeping the detail of HTTP exceptions and withholding the
    detail of everything else. */
module AllExceptionsFilter {
  import opened Exceptions
  import opened Http

  const GenericMessage := "An error occurred"
  const InternalServerError := "Internal server error"

  datatype ErrorResponse = ErrorResponse(
    statusCode: int,
    message: string,
    error: ExceptionBody,
    timestamp: string,
    path: string)

  /** The exception's own status for an `HttpException`, 500 for anything else. */
  function StatusOf(exception: Exception): (status: int)
    ensures exception.HttpException? ==> status == exception.status
    ensures !exception.HttpException? ==> status == 500
  {
    if exception.HttpException? then exception.status else 500
  }

  /** The body the filter sends. The clock reading is a parameter. */
  function ErrorResponseOf(exception: Exception, url: string, timestamp: string): ErrorResponse {
    ErrorResponse(
      StatusOf(exception),
      GenericMessage,
      if exception.HttpException? then exception.response else PlainText(InternalServerError),
      timestamp,
      url)
  }

  /** Nothing of an exception that is not an HTTP exception reaches the
      client: any two such exceptions give the same body, a 500 with the
      literal "Internal server error". */
  lemma NonHttpDetailWithheld(e1: Exception, e2: Exception, url: string, timestamp: string)
    requires !e1.HttpException? && !e2.HttpException?
    ensures ErrorResponseOf(e1, url, timestamp) == ErrorResponseOf(e2, url, timestamp)
    ensures ErrorResponseOf(e1, url, timestamp).statusCode == 500
    ensures ErrorResponseOf(e1, url, timestamp).error == PlainText(InternalServerError)
    ensures ErrorResponseOf(e1, url, timestamp).message == GenericMessage
    ensures ErrorResponseOf(e1, url, timestamp).path == url
  {
  }

  /** An HTTP exception is copied whole: its status and response can be read
      back from the body; the message is always the generic one and the path
      is the request's URL. */
  lemma HttpExceptionCopied(e: Exception, url: string, timestamp: string)
    requires e.HttpException?
    ensures var body := ErrorResponseOf(e, url, timestamp);
      && HttpException(body.statusCode, body.error) == e
      && body.message == GenericMessage
      && body.path == url
  {
  }

  /** `catch(exception, host)`: sets the status, then sends the body once. */
  method Catch(exception: Exception, request: Request, response: Response<ErrorResponse>, timestamp: string)
    modifies response
    ensures response.statusCode == ErrorResponseOf(exception, request.url, timestamp).statusCode
    ensures response.calls == old(response.calls) +
      [SetStatus(StatusOf(exception)), SendJson(ErrorResponseOf(exception, request.url, timestamp))]
  {
    var status := if exception.HttpException? then exception.status else 500;
    var errorResponse := ErrorResponse(
      status,
      GenericMessage,
      if exception.HttpException? then exception.response else PlainText(InternalServerError),
      timestamp,
      request.url);
    response.Status(status);
    response.Json(errorResponse);
  }
}
