/** How queries and handlers end. */
module Errors {

  datatype Error =
    | ForeignKeyViolation | UniqueViolation | OutOfRange | NoRows | BadOffset | EnqueueFailed | CommitFailed

  datatype Result<+T> = Ok(value: T) | Err(error: Error)

  /** The gRPC status codes that the handlers use. */
  datatype Status =
    | OK | InvalidArgument | NotFound | AlreadyExists
    | PermissionDenied | Unauthenticated | FailedPrecondition | Internal
}
