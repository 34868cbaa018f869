/**
 * What the plugin answers a call with, and the default `errorBuilder`: the
 * `when` on the exception's class and error kind that picks an HTTP status
 * and a message field.
 */
module ErrorBuilder {
  import opened Kotlin
  import opened Exceptions
  import opened Messages

  /** The HTTP statuses the plugin responds with. */
  datatype HttpStatus = Unauthorized | NotFound | TooManyRequests | InternalServerError | BadGateway

  /** The numeric code of a status. */
  function Code(s: HttpStatus): (code: int)
    ensures 400 <= code < 600
    ensures s.InternalServerError? || s.BadGateway? <==> code >= 500
  {
    match s
    case Unauthorized => 401
    case NotFound => 404
    case TooManyRequests => 429
    case InternalServerError => 500
    case BadGateway => 502
  }

  /** What an interceptor leaves behind: the call goes on untouched, or a response was sent. */
  datatype Outcome = Pass | Respond(status: HttpStatus, body: Payload)

  /**
   * The default `errorBuilder`: a verification exception is answered by
   * its kind, a key-fetch exception by its kind, anything else with the
   * generic 500.
   */
  function DefaultErrorResponse(e: Thrown, messages: FirebaseAppCheckMessages): (r: Outcome)
    ensures r.Respond?
    ensures e.Foreign? ==> r == Respond(InternalServerError, messages.unknownErrorResponse)
    ensures e.AppCheck? && e.error.VerifyJwtError? ==>
      r.status == (if e.error.verifyType == GenericJwtVerificationError then InternalServerError else Unauthorized)
  {
    match e
    case Foreign(_, _) => Respond(InternalServerError, messages.unknownErrorResponse)
    case AppCheck(_, VerifyJwtError(kind)) =>
      (match kind
       case TokenExpired => Respond(Unauthorized, messages.tokenExpiredResponse)
       case GenericJwtVerificationError => Respond(InternalServerError, messages.genericJwtVerificationErrorResponse)
       case TokenIsNotValid => Respond(Unauthorized, messages.tokenIsNotValidResponse)
       case HeaderTypeIsNotJwt => Respond(Unauthorized, messages.headerTypeIsNotJwtResponse)
       case TokenAlgorithmIsNotCorrect => Respond(Unauthorized, messages.tokenAlgorithmIsNotCorrectResponse)
       case TokenSignatureVerificationInvalid => Respond(Unauthorized, messages.tokenSignatureVerificationInvalidResponse)
       case TokenMissingClaim => Respond(Unauthorized, messages.tokenMissingClaimResponse)
       case TokenIncorrectClaim => Respond(Unauthorized, messages.tokenIncorrectClaimResponse)
       case UnknownError => Respond(Unauthorized, messages.verifyJwtUnhandledExceptionResponse))
    case AppCheck(_, FetchPublicKeyError(kind)) =>
      (match kind
       case SigningKeyNotFound => Respond(NotFound, messages.signingKeyNotFoundResponse)
       case NetworkError => Respond(BadGateway, messages.networkErrorResponse)
       case RateLimitReached => Respond(TooManyRequests, messages.rateLimitReachedResponse)
       case JwkError => Respond(InternalServerError, messages.jwkErrorResponse)
       case UnknownError => Respond(InternalServerError, messages.fetchPublicKeyUnknownErrorResponse))
  }

  /**
   * The message field each kind of failure is answered with. Every App
   * Check kind has a field of its own; everything else shares the generic one.
   */
  function ErrorField(e: AppCheckError): MessageField {
    match e
    case VerifyJwtError(TokenExpired) => TokenExpiredMessage
    case VerifyJwtError(GenericJwtVerificationError) => GenericJwtVerificationErrorMessage
    case VerifyJwtError(TokenIsNotValid) => TokenIsNotValidMessage
    case VerifyJwtError(HeaderTypeIsNotJwt) => HeaderTypeIsNotJwtMessage
    case VerifyJwtError(TokenAlgorithmIsNotCorrect) => TokenAlgorithmIsNotCorrectMessage
    case VerifyJwtError(TokenSignatureVerificationInvalid) => TokenSignatureVerificationInvalidMessage
    case VerifyJwtError(TokenMissingClaim) => TokenMissingClaimMessage
    case VerifyJwtError(TokenIncorrectClaim) => TokenIncorrectClaimMessage
    case VerifyJwtError(UnknownError) => VerifyJwtUnhandledException
    case FetchPublicKeyError(SigningKeyNotFound) => SigningKeyNotFoundMessage
    case FetchPublicKeyError(NetworkError) => NetworkErrorMessage
    case FetchPublicKeyError(RateLimitReached) => RateLimitReachedMessage
    case FetchPublicKeyError(JwkError) => JwkErrorMessage
    case FetchPublicKeyError(UnknownError) => FetchPublicKeyUnknownErrorMessage
  }

  /** The fields the interceptor itself answers with, never the error builder. */
  predicate IsInterceptorField(f: MessageField) {
    f == AppCheckIsNotDefined || f == AppCheckIsEmpty || f == AppCheckConditionFalse
  }

  /**
   * Distinct App Check kinds get distinct message fields, none of them a
   * field the interceptor uses itself or the generic one.
   */
  lemma ErrorFieldIsInjective(a: AppCheckError, b: AppCheckError)
    ensures ErrorField(a) == ErrorField(b) <==> a == b
    ensures !IsInterceptorField(ErrorField(a)) && ErrorField(a) != UnknownErrorMessage
  {
  }

  /** The default response's body is the message field of the exception's kind, or the generic one. */
  lemma DefaultErrorBody(e: Thrown, messages: FirebaseAppCheckMessages)
    ensures e.AppCheck? ==> DefaultErrorResponse(e, messages).body == Get(messages, ErrorField(e.error))
    ensures e.Foreign? ==> DefaultErrorResponse(e, messages).body == Get(messages, UnknownErrorMessage)
  {
  }

  /**
   * The default response's status by kind: 401 for every verification kind
   * but the generic one, 404, 502 and 429 for a missing key, a network error
   * and the rate limit, 500 for everything else.
   */
  lemma DefaultErrorStatus(e: Thrown, messages: FirebaseAppCheckMessages)
    ensures var s := DefaultErrorResponse(e, messages).status;
      && (s == Unauthorized <==> e.AppCheck? && e.error.VerifyJwtError? && e.error.verifyType != GenericJwtVerificationError)
      && (s == NotFound <==> e.AppCheck? && e.error == FetchPublicKeyError(SigningKeyNotFound))
      && (s == BadGateway <==> e.AppCheck? && e.error == FetchPublicKeyError(NetworkError))
      && (s == TooManyRequests <==> e.AppCheck? && e.error == FetchPublicKeyError(RateLimitReached))
      && (s == InternalServerError <==>
            e.Foreign? || e.error in {VerifyJwtError(GenericJwtVerificationError), FetchPublicKeyError(JwkError),
                                      FetchPublicKeyError(FetchPublicKeyErrorType.UnknownError)})
  {
  }

  /**
   * With the default messages a JWK error and an unknown fetch error get
   * the same response, and no error response depends on the header name.
   */
  lemma DefaultErrorResponseOfDefaultMessages(e: Thrown, message: string, h1: string, h2: string)
    ensures DefaultErrorResponse(AppCheck(message, FetchPublicKeyError(JwkError)), DefaultMessages(h1))
         == DefaultErrorResponse(AppCheck(message, FetchPublicKeyError(FetchPublicKeyErrorType.UnknownError)), DefaultMessages(h1))
    ensures DefaultErrorResponse(e, DefaultMessages(h1)) == DefaultErrorResponse(e, DefaultMessages(h2))
  {
  }
}
