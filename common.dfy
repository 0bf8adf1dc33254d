/**
 * Values shared by every layer of the project-tracking backend: optional
 * values, the outcome of an operation, the error taxonomy with its HTTP
 * status codes, and the caller a request carries.
 */
module Common {

  datatype Option<+T> = None | Some(value: T)

  /** The ways a request or a write can fail. */
  datatype Error =
    | NotAuthenticated        // the permission classes found no authenticated user
    | PermissionDenied        // has_object_permission refused the instance
    | NotFound                // the id is not among the rows the caller's queryset holds
    | Invalid(field: string)  // a serializer or model validator rejected this field
    | Integrity               // the database refused the write (unique or foreign key)
    | MissingRelated          // a one-to-one accessor found no related row

  /** The status code each error is reported with. */
  function StatusCode(e: Error): (code: nat)
    ensures 400 <= code < 600
    ensures code == 404 <==> e.NotFound?
    ensures code == 400 <==> e.Invalid?
  {
    match e
    case NotAuthenticated => 401
    case PermissionDenied => 403
    case NotFound => 404
    case Invalid(_) => 400
    case Integrity => 500
    case MissingRelated => 500
  }

  /** A value or the error that prevented it; usable with `:-`. */
  datatype Result<+T> = Ok(value: T) | Err(error: Error) {
    predicate IsFailure() { Err? }

    function PropagateFailure<U>(): Result<U>
      requires Err?
    {
      Err(error)
    }

    function Extract(): T
      requires Ok?
    {
      value
    }
  }

  type UserId = nat

  /** `request.user`: an anonymous user or an authenticated one. */
  datatype Caller = Anonymous | Authenticated(id: UserId)
}
