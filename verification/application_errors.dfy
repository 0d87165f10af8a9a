/**
 * The application's error taxonomy: the `APPLICATION_ERROR` enum and the nine
 * concrete `ApplicationError` subclasses, each fixing a message, an HTTP status
 * and an enum code in its constructor.
 *
 * The base class `ApplicationError` assigns neither a status nor a code, so a
 * bare instance of it is not well formed; only the nine concrete kinds are
 * modelled, which makes every function below total.
 */
module ApplicationErrors {
  import opened Wrappers

  /** The values of the `APPLICATION_ERROR` enum. */
  datatype ErrorCode =
    | INVALID_TOKEN_TYPE
    | INVALID_TOKEN
    | NOT_FOUND
    | EMAIL_IN_USE
    | UNAUTHORIZED
    | FORBIDDEN
    | INVALID_CREDENTIALS
    | EMAIL_NOT_VERIFIED
    | BAD_REQUEST

  /** The nine concrete error classes. */
  datatype ApplicationError =
    | InvalidTokenTypeError
    | InvalidTokenError
    | NotFoundError
    | EmailInUseError
    | UnauthorizedError
    | ForbiddenError
    | InvalidCredentialsError
    | EmailNotVerifiedError
    | BadRequestError

  /** The string each enum member is initialised with: an upper-case identifier. */
  function CodeName(c: ErrorCode): (s: string)
    ensures |s| > 0
    ensures forall i :: 0 <= i < |s| ==> ('A' <= s[i] <= 'Z') || s[i] == '_'
  {
    match c
    case INVALID_TOKEN_TYPE => "INVALID_TOKEN_TYPE"
    case INVALID_TOKEN => "INVALID_TOKEN"
    case NOT_FOUND => "NOT_FOUND"
    case EMAIL_IN_USE => "EMAIL_IN_USE"
    case UNAUTHORIZED => "UNAUTHORIZED"
    case FORBIDDEN => "FORBIDDEN"
    case INVALID_CREDENTIALS => "INVALID_CREDENTIALS"
    case EMAIL_NOT_VERIFIED => "EMAIL_NOT_VERIFIED"
    case BAD_REQUEST => "BAD_REQUEST"
  }

  /** Recovers an enum member from its string value; `None` for any other string. */
  function ParseCode(s: string): (r: Option<ErrorCode>)
    ensures r.Some? ==> CodeName(r.value) == s
  {
    if s == "INVALID_TOKEN_TYPE" then Some(INVALID_TOKEN_TYPE)
    else if s == "INVALID_TOKEN" then Some(INVALID_TOKEN)
    else if s == "NOT_FOUND" then Some(NOT_FOUND)
    else if s == "EMAIL_IN_USE" then Some(EMAIL_IN_USE)
    else if s == "UNAUTHORIZED" then Some(UNAUTHORIZED)
    else if s == "FORBIDDEN" then Some(FORBIDDEN)
    else if s == "INVALID_CREDENTIALS" then Some(INVALID_CREDENTIALS)
    else if s == "EMAIL_NOT_VERIFIED" then Some(EMAIL_NOT_VERIFIED)
    else if s == "BAD_REQUEST" then Some(BAD_REQUEST)
    else None
  }

  /** The `error` field each concrete class assigns. */
  function Code(e: ApplicationError): (c: ErrorCode)
    ensures KindOf(c) == e
  {
    match e
    case InvalidTokenTypeError => INVALID_TOKEN_TYPE
    case InvalidTokenError => INVALID_TOKEN
    case NotFoundError => NOT_FOUND
    case EmailInUseError => EMAIL_IN_USE
    case UnauthorizedError => UNAUTHORIZED
    case ForbiddenError => FORBIDDEN
    case InvalidCredentialsError => INVALID_CREDENTIALS
    case EmailNotVerifiedError => EMAIL_NOT_VERIFIED
    case BadRequestError => BAD_REQUEST
  }

  /** The one concrete class whose constructor assigns code `c`. */
  function KindOf(c: ErrorCode): (e: ApplicationError)
  {
    match c
    case INVALID_TOKEN_TYPE => InvalidTokenTypeError
    case INVALID_TOKEN => InvalidTokenError
    case NOT_FOUND => NotFoundError
    case EMAIL_IN_USE => EmailInUseError
    case UNAUTHORIZED => UnauthorizedError
    case FORBIDDEN => ForbiddenError
    case INVALID_CREDENTIALS => InvalidCredentialsError
    case EMAIL_NOT_VERIFIED => EmailNotVerifiedError
    case BAD_REQUEST => BadRequestError
  }

  /** The `httpStatus` field each concrete class assigns. */
  function HttpStatus(e: ApplicationError): (s: nat)
    ensures s in {400, 401, 403, 404}
    ensures s == 404 <==> e == NotFoundError
    ensures s == 403 <==> e == ForbiddenError
    ensures s == 400 <==> e in {InvalidTokenTypeError, EmailInUseError, BadRequestError}
    ensures s == 401 <==> e in {InvalidTokenError, UnauthorizedError, InvalidCredentialsError, EmailNotVerifiedError}
  {
    match e
    case InvalidTokenTypeError => 400
    case InvalidTokenError => 401
    case NotFoundError => 404
    case EmailInUseError => 400
    case UnauthorizedError => 401
    case ForbiddenError => 403
    case InvalidCredentialsError => 401
    case EmailNotVerifiedError => 401
    case BadRequestError => 400
  }

  /** The message each concrete class passes to `super`. */
  function Message(e: ApplicationError): (m: string)
    ensures |m| > 0
  {
    match e
    case InvalidTokenTypeError => "Invalid token type"
    case InvalidTokenError => "Invalid token"
    case NotFoundError => "Not found"
    case EmailInUseError => "Email already in use"
    case UnauthorizedError => "Unauthorized"
    case ForbiddenError => "Forbidden"
    case InvalidCredentialsError => "Invalid email or password"
    case EmailNotVerifiedError => "Email not verified"
    case BadRequestError => "Bad request"
  }

  /** Distinct kinds carry distinct codes, so a kind is recovered from its code. */
  lemma CodeInjective(e1: ApplicationError, e2: ApplicationError)
    ensures Code(e1) == Code(e2) <==> e1 == e2
  {
  }

  /**
   * The enum and the classes are in bijection: every enum member is the code
   * of exactly one class, and `KindOf` and `Code` are inverse to each other.
   */
  lemma CodeBijection(c: ErrorCode, e: ApplicationError)
    ensures Code(KindOf(c)) == c
    ensures KindOf(Code(e)) == e
    ensures Code(e) == c <==> KindOf(c) == e
  {
  }

  /** The enum's string values parse back to the enum members, and nothing else does. */
  lemma CodeNameRoundTrip(c: ErrorCode, s: string)
    ensures ParseCode(CodeName(c)) == Some(c)
    ensures ParseCode(s) == Some(c) <==> CodeName(c) == s
  {
  }

  /** Distinct kinds carry distinct messages. */
  lemma MessageInjective(e1: ApplicationError, e2: ApplicationError)
    ensures Message(e1) == Message(e2) <==> e1 == e2
  {
  }
}
