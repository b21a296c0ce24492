/** The exceptions the core raises or lets through, in the shapes the NestJS
    framework gives them, and the outcome of an operation that may raise. */
module Exceptions {
  import opened Wrappers
  import opened Zod

  /** One entry of the validation pipe's `errors` list. */
  datatype FormattedError = FormattedError(field: Option<PathElem>, message: string)

  /** What `HttpException.getResponse()` returns: the object the exception was
      built from, the framework's standard body for a message, or a bare string. */
  datatype ExceptionBody =
    | ValidationBody(statusCode: int, message: string, errors: seq<FormattedError>)
    | StandardBody(statusCode: int, message: string, error: string)
    | PlainText(text: string)

  /** An `HttpException` with its status, a plain JavaScript `Error`, or a
      known request error of the database client with its code. */
  datatype Exception =
    | HttpException(status: int, response: ExceptionBody)
    | PlainError(message: string)
    | PrismaKnownError(code: string)

  /** A call that returns a value or raises; `async` rejection is `Raised`. */
  datatype Outcome<+T> = Returned(value: T) | Raised(exception: Exception)

  /** Database client code for "record required by the operation not found". */
  const RecordNotFound := "P2025"
  /** Database client code for a unique constraint violation. */
  const UniqueConstraintFailed := "P2002"

  /** `new BadRequestException(body)` */
  function BadRequest(body: ExceptionBody): Exception {
    HttpException(400, body)
  }

  /** `new UnauthorizedException(message)` */
  function Unauthorized(message: string): Exception {
    HttpException(401, StandardBody(401, message, "Unauthorized"))
  }

  /** `new NotFoundException(message)` */
  function NotFound(message: string): Exception {
    HttpException(404, StandardBody(404, message, "Not Found"))
  }

  /** What the framework raises when a guard answers `false`. */
  const Forbidden := HttpException(403, StandardBody(403, "Forbidden resource", "Forbidden"))
}
