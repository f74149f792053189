/**
 The SDK's exceptions as values, and the two tables that turn the transport's
 error code into an exception class: the one of get and post, and the shorter
 one of createToken.
 */
module Errors {
  import opened Http

  /** One constructor per exception class the SDK throws; Generic is PHP's
      base Exception. */
  datatype ErrorKind =
    | ClientError
    | Unauthorized
    | RoleError
    | NotFound
    | UnprocessableEntity
    | InternalServerError
    | Generic

  /** A thrown exception: its class, message and code. */
  datatype Error = Error(kind: ErrorKind, message: string, code: int)

  /** A value, or the exception thrown instead of returning it. */
  datatype Result<+T> = Ok(value: T) | Err(error: Error)

  /** The codes that get and post map to a dedicated exception class. */
  const RequestStatuses: set<int> := {401, 403, 404, 422, 500}

  /** The HTTP status each dedicated exception class stands for. */
  function StatusOf(kind: ErrorKind): Option<int> {
    match kind
    case Unauthorized => Some(401)
    case RoleError => Some(403)
    case NotFound => Some(404)
    case UnprocessableEntity => Some(422)
    case InternalServerError => Some(500)
    case _ => None
  }

  /** The switch of get and post: each listed status to its own class,
      every other code to the base Exception. */
  function RequestErrorKind(code: int): (kind: ErrorKind)
    ensures kind != ClientError
    ensures kind == Generic <==> code !in RequestStatuses
    ensures kind != Generic ==> StatusOf(kind) == Some(code)
  {
    if code == 401 then Unauthorized
    else if code == 403 then RoleError
    else if code == 404 then NotFound
    else if code == 422 then UnprocessableEntity
    else if code == 500 then InternalServerError
    else Generic
  }

  /** The switch of createToken: the same as get and post except that it
      has no case for 403 and 422, which fall to the base Exception. */
  function TokenErrorKind(code: int): (kind: ErrorKind)
    ensures kind == if code == 403 || code == 422 then Generic else RequestErrorKind(code)
    ensures kind !in {ClientError, RoleError, UnprocessableEntity}
  {
    if code == 401 then Unauthorized
    else if code == 404 then NotFound
    else if code == 500 then InternalServerError
    else Generic
  }

  /** What get and post make of the transport's outcome: on its error flag
      an exception that carries the transport's message and code unchanged,
      otherwise the decoded body as it is. */
  function ClassifyRequest(outcome: Outcome): (r: Result<Decoded>)
    ensures r.Ok? <==> outcome.Succeeded?
    ensures r.Ok? ==> r.value == outcome.body
    ensures r.Err? ==> r.error.message == outcome.message && r.error.code == outcome.code
    ensures r.Err? ==> r.error.kind == RequestErrorKind(outcome.code)
  {
    match outcome
    case Failed(code, message) => Err(Error(RequestErrorKind(code), message, code))
    case Succeeded(body) => Ok(body)
  }

  /** The message of the exception createToken throws for a reply without
      a usable token. */
  const TokenErrorMessage := "create token error"

  /** What createToken makes of the transport's outcome: the new token, or
      the exception it throws instead of storing one. */
  function ClassifyToken(outcome: Outcome): (r: Result<string>)
    ensures r.Ok? <==> outcome.Succeeded? && outcome.body.NonEmpty? && outcome.body.token.Some?
    ensures r.Ok? ==> r.value == outcome.body.token.value
    ensures outcome.Failed? ==> r == Err(Error(TokenErrorKind(outcome.code), outcome.message, outcome.code))
    ensures outcome.Succeeded? && r.Err? ==> r.error == Error(Generic, TokenErrorMessage, 0)
  {
    match outcome
    case Failed(code, message) => Err(Error(TokenErrorKind(code), message, code))
    case Succeeded(body) =>
      if body.Empty? || body.token.None? then Err(Error(Generic, TokenErrorMessage, 0))
      else Ok(body.token.value)
  }

  /** The exception get and post throw for a literally empty endpoint. */
  const EmptyEndPoint := Error(ClientError, "end point empty", 9001)
}
