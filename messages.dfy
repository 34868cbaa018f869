/**
 * The response bodies the plugin sends: one field per situation, each any
 * value the application likes (a plain text by default, or for instance a
 * JSON-like map), and the default texts built from the header name.
 */
module Messages {
  import opened Kotlin

  /** A response body: the default texts, or a structured value such as a map. */
  datatype Payload = Text(text: string) | Structured(entries: map<string, string>)

  /** The message set the plugin responds with. */
  datatype FirebaseAppCheckMessages = FirebaseAppCheckMessages(
    appCheckIsNotDefinedResponse: Payload,
    appCheckIsEmptyResponse: Payload,
    appCheckConditionFalseResponse: Payload,
    tokenExpiredResponse: Payload,
    genericJwtVerificationErrorResponse: Payload,
    tokenIsNotValidResponse: Payload,
    headerTypeIsNotJwtResponse: Payload,
    tokenAlgorithmIsNotCorrectResponse: Payload,
    tokenSignatureVerificationInvalidResponse: Payload,
    tokenMissingClaimResponse: Payload,
    tokenIncorrectClaimResponse: Payload,
    verifyJwtUnhandledExceptionResponse: Payload,
    signingKeyNotFoundResponse: Payload,
    networkErrorResponse: Payload,
    rateLimitReachedResponse: Payload,
    jwkErrorResponse: Payload,
    fetchPublicKeyUnknownErrorResponse: Payload,
    unknownErrorResponse: Payload)

  /** The name of each field of the message set. */
  datatype MessageField =
    | AppCheckIsNotDefined
    | AppCheckIsEmpty
    | AppCheckConditionFalse
    | TokenExpiredMessage
    | GenericJwtVerificationErrorMessage
    | TokenIsNotValidMessage
    | HeaderTypeIsNotJwtMessage
    | TokenAlgorithmIsNotCorrectMessage
    | TokenSignatureVerificationInvalidMessage
    | TokenMissingClaimMessage
    | TokenIncorrectClaimMessage
    | VerifyJwtUnhandledException
    | SigningKeyNotFoundMessage
    | NetworkErrorMessage
    | RateLimitReachedMessage
    | JwkErrorMessage
    | FetchPublicKeyUnknownErrorMessage
    | UnknownErrorMessage

  /** Reads one field. */
  function Get(m: FirebaseAppCheckMessages, f: MessageField): Payload {
    match f
    case AppCheckIsNotDefined => m.appCheckIsNotDefinedResponse
    case AppCheckIsEmpty => m.appCheckIsEmptyResponse
    case AppCheckConditionFalse => m.appCheckConditionFalseResponse
    case TokenExpiredMessage => m.tokenExpiredResponse
    case GenericJwtVerificationErrorMessage => m.genericJwtVerificationErrorResponse
    case TokenIsNotValidMessage => m.tokenIsNotValidResponse
    case HeaderTypeIsNotJwtMessage => m.headerTypeIsNotJwtResponse
    case TokenAlgorithmIsNotCorrectMessage => m.tokenAlgorithmIsNotCorrectResponse
    case TokenSignatureVerificationInvalidMessage => m.tokenSignatureVerificationInvalidResponse
    case TokenMissingClaimMessage => m.tokenMissingClaimResponse
    case TokenIncorrectClaimMessage => m.tokenIncorrectClaimResponse
    case VerifyJwtUnhandledException => m.verifyJwtUnhandledExceptionResponse
    case SigningKeyNotFoundMessage => m.signingKeyNotFoundResponse
    case NetworkErrorMessage => m.networkErrorResponse
    case RateLimitReachedMessage => m.rateLimitReachedResponse
    case JwkErrorMessage => m.jwkErrorResponse
    case FetchPublicKeyUnknownErrorMessage => m.fetchPublicKeyUnknownErrorResponse
    case UnknownErrorMessage => m.unknownErrorResponse
  }

  /**
   * The message set with one field given explicitly (a named constructor
   * argument), every other field unchanged.
   */
  function Override(m: FirebaseAppCheckMessages, f: MessageField, v: Payload): (r: FirebaseAppCheckMessages)
    ensures Get(r, f) == v
    ensures forall g :: g != f ==> Get(r, g) == Get(m, g)
  {
    match f
    case AppCheckIsNotDefined => m.(appCheckIsNotDefinedResponse := v)
    case AppCheckIsEmpty => m.(appCheckIsEmptyResponse := v)
    case AppCheckConditionFalse => m.(appCheckConditionFalseResponse := v)
    case TokenExpiredMessage => m.(tokenExpiredResponse := v)
    case GenericJwtVerificationErrorMessage => m.(genericJwtVerificationErrorResponse := v)
    case TokenIsNotValidMessage => m.(tokenIsNotValidResponse := v)
    case HeaderTypeIsNotJwtMessage => m.(headerTypeIsNotJwtResponse := v)
    case TokenAlgorithmIsNotCorrectMessage => m.(tokenAlgorithmIsNotCorrectResponse := v)
    case TokenSignatureVerificationInvalidMessage => m.(tokenSignatureVerificationInvalidResponse := v)
    case TokenMissingClaimMessage => m.(tokenMissingClaimResponse := v)
    case TokenIncorrectClaimMessage => m.(tokenIncorrectClaimResponse := v)
    case VerifyJwtUnhandledException => m.(verifyJwtUnhandledExceptionResponse := v)
    case SigningKeyNotFoundMessage => m.(signingKeyNotFoundResponse := v)
    case NetworkErrorMessage => m.(networkErrorResponse := v)
    case RateLimitReachedMessage => m.(rateLimitReachedResponse := v)
    case JwkErrorMessage => m.(jwkErrorResponse := v)
    case FetchPublicKeyUnknownErrorMessage => m.(fetchPublicKeyUnknownErrorResponse := v)
    case UnknownErrorMessage => m.(unknownErrorResponse := v)
  }

  /** The default texts; the two header messages are built around the header name. */
  const NotDefinedPrefix := "App check should be defined in the header: "
  const EmptyPrefix := "App check in the header('"
  const EmptySuffix := "') should not be empty."
  const ConditionFalseText := "App check token is not verified."
  const JwkErrorText := "Unknown error while getting the public key from Firebase App Check API. It's related to JWK."
  const TokenExpiredText := "This firebase app check token is expired."
  const GenericJwtVerificationErrorText := "Unknown error while verifying the firebase app check token. It's when we're trying to verify the jwt."
  const TokenIsNotValidText := "The firebase app check token is invalid."
  const HeaderTypeIsNotJwtText := "The type of this token in the header is not equal to 'jwt'."
  const TokenAlgorithmIsNotCorrectText := "The type of this algorithm in the token is not RSA256."
  const TokenSignatureVerificationInvalidText := "The token signature is invalid."
  const TokenMissingClaimText := "There are missing claims, make sure the kid exists and the token is valid."
  const TokenIncorrectClaimText := "There are incorrect claims, make sure the kid exists and the token is valid."
  const VerifyJwtUnhandledExceptionText := "Unhandled exception while verifying the token."
  const SigningKeyNotFoundText := "Can't find the signing key from Firebase App Check API."
  const NetworkErrorText := "There was a network error while fetching the public key from Firebase App Check."
  const RateLimitReachedText := "The limit has been reached. The Firebase App Check API no longer takes requests from us for now."
  const UnknownErrorText := "Unknown while run the firebase app check feature."

  /**
   * The default message set for a configuration whose header name is
   * `headerName`: the two header messages name that header, the others are
   * fixed texts.
   */
  function DefaultMessages(headerName: string): (m: FirebaseAppCheckMessages)
    ensures forall f :: Get(m, f).Text?
    ensures m.appCheckConditionFalseResponse == Text(ConditionFalseText)
    ensures m.jwkErrorResponse == m.fetchPublicKeyUnknownErrorResponse == Text(JwkErrorText)
  {
    FirebaseAppCheckMessages(
      Text(NotDefinedPrefix + headerName + "."),
      Text(EmptyPrefix + headerName + EmptySuffix),
      Text(ConditionFalseText),
      Text(TokenExpiredText),
      Text(GenericJwtVerificationErrorText),
      Text(TokenIsNotValidText),
      Text(HeaderTypeIsNotJwtText),
      Text(TokenAlgorithmIsNotCorrectText),
      Text(TokenSignatureVerificationInvalidText),
      Text(TokenMissingClaimText),
      Text(TokenIncorrectClaimText),
      Text(VerifyJwtUnhandledExceptionText),
      Text(SigningKeyNotFoundText),
      Text(NetworkErrorText),
      Text(RateLimitReachedText),
      Text(JwkErrorText),
      Text(JwkErrorText),
      Text(UnknownErrorText))
  }

  /** Reads back the header name embedded in a text `prefix + name + suffix`. */
  function Between(text: string, prefix: string, suffix: string): (r: Option<string>)
    ensures r.Some? ==> text == prefix + r.value + suffix
    ensures (exists name :: text == prefix + name + suffix) ==> r.Some?
  {
    if |prefix| + |suffix| <= |text| && text[..|prefix|] == prefix && text[|text| - |suffix|..] == suffix then
      var name := text[|prefix|..|text| - |suffix|];
      assert text == prefix + name + suffix by {
        assert text == text[..|prefix|] + text[|prefix|..|text| - |suffix|] + text[|text| - |suffix|..];
      }
      Some(name)
    else
      None
  }

  /** The header name the not-defined message mentions. */
  function NotDefinedHeaderName(p: Payload): Option<string> {
    if p.Text? then Between(p.text, NotDefinedPrefix, ".") else None
  }

  /** The header name the empty-header message mentions. */
  function EmptyHeaderName(p: Payload): Option<string> {
    if p.Text? then Between(p.text, EmptyPrefix, EmptySuffix) else None
  }

  /** Both header messages of the defaults name exactly the configured header. */
  lemma DefaultMessagesNameTheHeader(headerName: string)
    ensures NotDefinedHeaderName(DefaultMessages(headerName).appCheckIsNotDefinedResponse) == Some(headerName)
    ensures EmptyHeaderName(DefaultMessages(headerName).appCheckIsEmptyResponse) == Some(headerName)
  {
    var m := DefaultMessages(headerName);
    var t := m.appCheckIsNotDefinedResponse.text;
    var r := Between(t, NotDefinedPrefix, ".");
    assert r.Some?;
    assert t == NotDefinedPrefix + r.value + ".";
    assert r.value == t[|NotDefinedPrefix|..|t| - 1];
    var u := m.appCheckIsEmptyResponse.text;
    var q := Between(u, EmptyPrefix, EmptySuffix);
    assert q.Some?;
    assert q.value == u[|EmptyPrefix|..|u| - |EmptySuffix|];
  }

  /**
   * The defaults depend on the configuration only through the header name,
   * and determine it: different header names give different message sets.
   */
  lemma DefaultMessagesDetermineHeader(h1: string, h2: string)
    ensures DefaultMessages(h1) == DefaultMessages(h2) <==> h1 == h2
  {
    if DefaultMessages(h1) == DefaultMessages(h2) {
      DefaultMessagesNameTheHeader(h1);
      DefaultMessagesNameTheHeader(h2);
    }
  }
}
