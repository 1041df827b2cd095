/**
 * The client's error taxonomy: the four error classes the package declares, the
 * Python built-in exceptions the request layer can let escape, and the fixed
 * table from HTTP status code to error class.
 */
module Exceptions {
  import opened Common

  datatype ErrorKind =
    // declared by the package, each a subclass of Exception
    | BadRequestError
    | UnauthorisedError
    | ForbiddenError
    | NotFoundError
    // Python built-ins
    | Exception        // the plain base class, raised for every unmapped status
    | KeyError
    | TypeError
    | JSONDecodeError
    | AssertionError
    | AttributeError

  /** `status_code_exceptions`: the literal dictionary. */
  const StatusCodeExceptions: map<int, ErrorKind> :=
    map[400 := BadRequestError, 401 := UnauthorisedError, 403 := ForbiddenError, 404 := NotFoundError]

  /** `status_code_exceptions.get(status, Exception)`: the class the client raises for a failed call. */
  function KindFor(status: int): ErrorKind
  {
    if status in StatusCodeExceptions then StatusCodeExceptions[status] else Exception
  }

  /** The status a package error class stands for; the built-ins stand for none. */
  function StatusOf(kind: ErrorKind): Option<int>
  {
    match kind
    case BadRequestError => Some(400)
    case UnauthorisedError => Some(401)
    case ForbiddenError => Some(403)
    case NotFoundError => Some(404)
    case _ => None
  }

  predicate IsClientErrorStatus(status: int)
  {
    400 <= status < 500
  }

  /** The table has exactly the four keys 400, 401, 403 and 404. */
  lemma MappedStatuses()
    ensures StatusCodeExceptions.Keys == {400, 401, 403, 404}
  {
  }

  /** Each mapped status gives its own class. */
  lemma MappedKinds()
    ensures KindFor(400) == BadRequestError
    ensures KindFor(401) == UnauthorisedError
    ensures KindFor(403) == ForbiddenError
    ensures KindFor(404) == NotFoundError
  {
  }

  /** Every status outside the table falls back to the plain Exception class. */
  lemma UnmappedFallsBack(status: int)
    requires status !in {400, 401, 403, 404}
    ensures KindFor(status) == Exception
  {
  }

  /** Distinct mapped statuses give distinct classes. */
  lemma MappingInjective(a: int, b: int)
    requires a in StatusCodeExceptions && b in StatusCodeExceptions && a != b
    ensures StatusCodeExceptions[a] != StatusCodeExceptions[b]
  {
  }

  /** Every mapped status is a 4xx client-error code. */
  lemma MappedAreClientErrors(status: int)
    requires status in StatusCodeExceptions
    ensures IsClientErrorStatus(status)
  {
  }

  /**
   * The table and `StatusOf` are inverse: a mapped status comes back from its
   * class, and a class with a status is exactly the class that status maps to.
   */
  lemma StatusRoundTrip(status: int, kind: ErrorKind)
    ensures status in StatusCodeExceptions ==> StatusOf(KindFor(status)) == Some(status)
    ensures StatusOf(kind).Some? ==> StatusOf(kind).value in StatusCodeExceptions &&
                                     KindFor(StatusOf(kind).value) == kind
    ensures status !in StatusCodeExceptions ==> StatusOf(KindFor(status)) == None
  {
  }
}
