/**
 * The plugin's error vocabulary (the two error-type enums and the three
 * App Check exception classes), the part of the Java exception hierarchy
 * the plugin's `catch` clauses rely on, and the semantics of a first-match
 * `try { ... } catch (e: A) { ... } catch (e: B) { ... }` ladder.
 */
module Exceptions {
  import opened Kotlin

  /** The kinds of failure while fetching the signing key. */
  datatype FetchPublicKeyErrorType =
    | SigningKeyNotFound
    | NetworkError
    | RateLimitReached
    | JwkError
    | UnknownError

  /** The kinds of failure while verifying the token. */
  datatype VerifyJwtErrorType =
    | TokenExpired
    | GenericJwtVerificationError
    | TokenIsNotValid
    | HeaderTypeIsNotJwt
    | TokenAlgorithmIsNotCorrect
    | TokenSignatureVerificationInvalid
    | TokenMissingClaim
    | TokenIncorrectClaim
    | UnknownError

  /** Every fetch kind, in declaration order. */
  const AllFetchPublicKeyErrorTypes: seq<FetchPublicKeyErrorType> :=
    [SigningKeyNotFound, NetworkError, RateLimitReached, JwkError,
     FetchPublicKeyErrorType.UnknownError]

  /** Every verify kind, in declaration order. */
  const AllVerifyJwtErrorTypes: seq<VerifyJwtErrorType> :=
    [TokenExpired, GenericJwtVerificationError, TokenIsNotValid, HeaderTypeIsNotJwt,
     TokenAlgorithmIsNotCorrect, TokenSignatureVerificationInvalid, TokenMissingClaim,
     TokenIncorrectClaim, VerifyJwtErrorType.UnknownError]

  /** The JVM exception classes that the plugin throws, catches or lets escape. */
  datatype JavaClass =
    | Exception
    | RuntimeException
    | IOException
    | MalformedURLException
    | ClassCastException
    | NullPointerException
    | IllegalArgumentException
    | IllegalStateException
    | IndexOutOfBoundsException
    | NoSuchElementException
      // com.auth0.jwt.exceptions
    | JWTVerificationException
    | JWTDecodeException
    | AlgorithmMismatchException
    | SignatureVerificationException
    | TokenExpiredException
    | InvalidClaimException
    | MissingClaimException
    | IncorrectClaimException
      // com.auth0.jwk
    | JwkException
    | SigningKeyNotFoundException
    | NetworkException
    | RateLimitReachedException
    | InvalidPublicKeyException
      // this plugin
    | FirebaseAppCheckException
    | FirebaseAppCheckFetchPublicKeyException
    | FirebaseAppCheckVerifyJwtException

  /** The direct superclass; `Exception` is the root of what the plugin catches. */
  function Parent(c: JavaClass): Option<JavaClass> {
    match c
    case Exception => None
    case RuntimeException => Some(Exception)
    case IOException => Some(Exception)
    case MalformedURLException => Some(IOException)
    case ClassCastException => Some(RuntimeException)
    case NullPointerException => Some(RuntimeException)
    case IllegalArgumentException => Some(RuntimeException)
    case IllegalStateException => Some(RuntimeException)
    case IndexOutOfBoundsException => Some(RuntimeException)
    case NoSuchElementException => Some(RuntimeException)
    case JWTVerificationException => Some(RuntimeException)
    case JWTDecodeException => Some(JWTVerificationException)
    case AlgorithmMismatchException => Some(JWTVerificationException)
    case SignatureVerificationException => Some(JWTVerificationException)
    case TokenExpiredException => Some(JWTVerificationException)
    case InvalidClaimException => Some(JWTVerificationException)
    case MissingClaimException => Some(InvalidClaimException)
    case IncorrectClaimException => Some(InvalidClaimException)
    case JwkException => Some(Exception)
    case SigningKeyNotFoundException => Some(JwkException)
    case NetworkException => Some(SigningKeyNotFoundException)
    case RateLimitReachedException => Some(JwkException)
    case InvalidPublicKeyException => Some(JwkException)
    case FirebaseAppCheckException => Some(Exception)
    case FirebaseAppCheckFetchPublicKeyException => Some(FirebaseAppCheckException)
    case FirebaseAppCheckVerifyJwtException => Some(FirebaseAppCheckException)
  }

  /**
   * The class and every superclass of it up to `Exception`, written out per
   * class so that subclass tests on known classes stay cheap to decide.
   * `AncestorsFollowParent` ties the table to `Parent`.
   */
  function Ancestors(c: JavaClass): set<JavaClass> {
    match c
    case Exception => {Exception}
    case RuntimeException => {RuntimeException, Exception}
    case IOException => {IOException, Exception}
    case MalformedURLException => {MalformedURLException, IOException, Exception}
    case ClassCastException => {ClassCastException, RuntimeException, Exception}
    case NullPointerException => {NullPointerException, RuntimeException, Exception}
    case IllegalArgumentException => {IllegalArgumentException, RuntimeException, Exception}
    case IllegalStateException => {IllegalStateException, RuntimeException, Exception}
    case IndexOutOfBoundsException => {IndexOutOfBoundsException, RuntimeException, Exception}
    case NoSuchElementException => {NoSuchElementException, RuntimeException, Exception}
    case JWTVerificationException => {JWTVerificationException, RuntimeException, Exception}
    case JWTDecodeException => {JWTDecodeException, JWTVerificationException, RuntimeException, Exception}
    case AlgorithmMismatchException => {AlgorithmMismatchException, JWTVerificationException, RuntimeException, Exception}
    case SignatureVerificationException => {SignatureVerificationException, JWTVerificationException, RuntimeException, Exception}
    case TokenExpiredException => {TokenExpiredException, JWTVerificationException, RuntimeException, Exception}
    case InvalidClaimException => {InvalidClaimException, JWTVerificationException, RuntimeException, Exception}
    case MissingClaimException => {MissingClaimException, InvalidClaimException, JWTVerificationException, RuntimeException, Exception}
    case IncorrectClaimException => {IncorrectClaimException, InvalidClaimException, JWTVerificationException, RuntimeException, Exception}
    case JwkException => {JwkException, Exception}
    case SigningKeyNotFoundException => {SigningKeyNotFoundException, JwkException, Exception}
    case NetworkException => {NetworkException, SigningKeyNotFoundException, JwkException, Exception}
    case RateLimitReachedException => {RateLimitReachedException, JwkException, Exception}
    case InvalidPublicKeyException => {InvalidPublicKeyException, JwkException, Exception}
    case FirebaseAppCheckException => {FirebaseAppCheckException, Exception}
    case FirebaseAppCheckFetchPublicKeyException => {FirebaseAppCheckFetchPublicKeyException, FirebaseAppCheckException, Exception}
    case FirebaseAppCheckVerifyJwtException => {FirebaseAppCheckVerifyJwtException, FirebaseAppCheckException, Exception}
  }

  /** `e is D` for an exception of class `c`: `c` is `d` or one of its subclasses. */
  predicate IsA(c: JavaClass, d: JavaClass) {
    d in Ancestors(c)
  }

  /** The ancestor table is the reflexive-transitive closure of `Parent`. */
  lemma AncestorsFollowParent(c: JavaClass)
    ensures Parent(c).None? ==> Ancestors(c) == {c}
    ensures Parent(c).Some? ==> Ancestors(c) == {c} + Ancestors(Parent(c).value)
  {
  }

  /** Every class here is an `Exception`, so `catch (e: Exception)` catches all of them. */
  lemma EveryClassIsException(c: JavaClass)
    ensures IsA(c, Exception)
  {
  }

  /** An App Check error: which family, and which kind within it. */
  datatype AppCheckError =
    | FetchPublicKeyError(fetchType: FetchPublicKeyErrorType)
    | VerifyJwtError(verifyType: VerifyJwtErrorType)

  /** The classes of exceptions the plugin did not raise itself. */
  type ForeignClass = c: JavaClass
    | c != FirebaseAppCheckFetchPublicKeyException && c != FirebaseAppCheckVerifyJwtException
    witness Exception

  /**
   * A thrown exception. `Foreign` is one raised by a library, the runtime or a
   * user callback; its message may be null. `AppCheck` is an instance of
   * one of the two App Check exception classes, whose message is never null.
   * A bare `FirebaseAppCheckException` is `Foreign(FirebaseAppCheckException, _)`.
   */
  datatype Thrown =
    | Foreign(cls: ForeignClass, foreignMessage: Option<string>)
    | AppCheck(message: string, error: AppCheckError)

  /** The runtime class of a thrown exception. */
  function ClassOf(t: Thrown): (c: JavaClass)
    ensures IsA(c, Exception)
    ensures t.AppCheck? ==> IsA(c, FirebaseAppCheckException)
    ensures t.AppCheck? && t.error.FetchPublicKeyError? ==> c == FirebaseAppCheckFetchPublicKeyException
    ensures t.AppCheck? && t.error.VerifyJwtError? ==> c == FirebaseAppCheckVerifyJwtException
    ensures t.Foreign? ==> c == t.cls
  {
    var c := match t
      case Foreign(c, _) => c
      case AppCheck(_, FetchPublicKeyError(_)) => FirebaseAppCheckFetchPublicKeyException
      case AppCheck(_, VerifyJwtError(_)) => FirebaseAppCheckVerifyJwtException;
    EveryClassIsException(c);
    c
  }

  /** `e.message` (Java's `getMessage()`), null standing as `None`. */
  function MessageOf(t: Thrown): (m: Option<string>)
    ensures t.AppCheck? ==> m == Some(t.message)
    ensures t.Foreign? ==> m == t.foreignMessage
  {
    match t
    case Foreign(_, m) => m
    case AppCheck(m, _) => Some(m)
  }

  /**
   * The exception an App Check constructor builds: its message and error
   * type are exactly the arguments, and its class belongs to exactly one family.
   */
  function NewAppCheckException(message: string, error: AppCheckError): (t: Thrown)
    ensures t.AppCheck? && t.error == error && MessageOf(t) == Some(message)
    ensures IsA(ClassOf(t), FirebaseAppCheckException)
    ensures IsA(ClassOf(t), FirebaseAppCheckFetchPublicKeyException) <==> error.FetchPublicKeyError?
    ensures IsA(ClassOf(t), FirebaseAppCheckVerifyJwtException) <==> error.VerifyJwtError?
  {
    AppCheck(message, error)
  }

  /** The two enums have five and nine distinct members, and nothing else. */
  lemma ErrorTypeCounts(f: FetchPublicKeyErrorType, v: VerifyJwtErrorType)
    ensures f in AllFetchPublicKeyErrorTypes && v in AllVerifyJwtErrorTypes
    ensures |AllFetchPublicKeyErrorTypes| == 5 && |AllVerifyJwtErrorTypes| == 9
    ensures forall i, j :: 0 <= i < j < 5 ==> AllFetchPublicKeyErrorTypes[i] != AllFetchPublicKeyErrorTypes[j]
    ensures forall i, j :: 0 <= i < j < 9 ==> AllVerifyJwtErrorTypes[i] != AllVerifyJwtErrorTypes[j]
  {
  }
}
