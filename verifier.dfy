/**
 * The production token verifier: fetching the signing key named by the
 * token's `kid`, verifying the token against it, and the two `catch`
 * ladders that translate library exceptions into App Check errors. The
 * same code appears in the earlier single-module plugin and in the JVM
 * library; they differ only in the key-fetch configuration they pass and
 * in what they return on success.
 */
module Verifier {
  import opened Kotlin
  import opened Exceptions
  import opened FetchConfig
  import opened Jwt

  /**
   * The `catch` clauses around the key fetch, tried in source order: the
   * error kind an exception of class `c` is rethrown as.
   */
  function FetchCatch(c: JavaClass): AppCheckError {
    if IsA(c, SigningKeyNotFoundException) then FetchPublicKeyError(SigningKeyNotFound)
    else if IsA(c, NetworkException) then FetchPublicKeyError(NetworkError)
    else if IsA(c, RateLimitReachedException) then FetchPublicKeyError(RateLimitReached)
    else if IsA(c, JwkException) then FetchPublicKeyError(JwkError)
    else if IsA(c, JWTDecodeException) then VerifyJwtError(TokenIsNotValid)
    else if IsA(c, AlgorithmMismatchException) then VerifyJwtError(TokenAlgorithmIsNotCorrect)
    else if IsA(c, SignatureVerificationException) then VerifyJwtError(TokenSignatureVerificationInvalid)
    else if IsA(c, MissingClaimException) then VerifyJwtError(TokenMissingClaim)
    else if IsA(c, IncorrectClaimException) then VerifyJwtError(TokenIncorrectClaim)
    else if IsA(c, JWTVerificationException) then VerifyJwtError(GenericJwtVerificationError)
    else FetchPublicKeyError(FetchPublicKeyErrorType.UnknownError)
  }

  /** The `catch` clauses around the token verification, tried in source order. */
  function VerifyCatch(c: JavaClass): AppCheckError {
    if IsA(c, TokenExpiredException) then VerifyJwtError(TokenExpired)
    else if IsA(c, JWTDecodeException) then VerifyJwtError(TokenIsNotValid)
    else if IsA(c, AlgorithmMismatchException) then VerifyJwtError(TokenAlgorithmIsNotCorrect)
    else if IsA(c, SignatureVerificationException) then VerifyJwtError(TokenSignatureVerificationInvalid)
    else if IsA(c, MissingClaimException) then VerifyJwtError(TokenMissingClaim)
    else if IsA(c, IncorrectClaimException) then VerifyJwtError(TokenIncorrectClaim)
    else if IsA(c, JWTVerificationException) then VerifyJwtError(GenericJwtVerificationError)
    else VerifyJwtError(VerifyJwtErrorType.UnknownError)
  }

  /**
   * How the key fetch reports an exception of class `c`, written per class
   * from the exception hierarchy rather than by trying clauses in order.
   * `NetworkException` is a `SigningKeyNotFoundException`, so the earlier
   * clause takes it.
   */
  function FetchClassification(c: JavaClass): AppCheckError {
    match c
    case SigningKeyNotFoundException | NetworkException => FetchPublicKeyError(SigningKeyNotFound)
    case RateLimitReachedException => FetchPublicKeyError(RateLimitReached)
    case JwkException | InvalidPublicKeyException => FetchPublicKeyError(JwkError)
    case JWTDecodeException => VerifyJwtError(TokenIsNotValid)
    case AlgorithmMismatchException => VerifyJwtError(TokenAlgorithmIsNotCorrect)
    case SignatureVerificationException => VerifyJwtError(TokenSignatureVerificationInvalid)
    case MissingClaimException => VerifyJwtError(TokenMissingClaim)
    case IncorrectClaimException => VerifyJwtError(TokenIncorrectClaim)
    case JWTVerificationException | TokenExpiredException | InvalidClaimException =>
      VerifyJwtError(GenericJwtVerificationError)
    case _ => FetchPublicKeyError(FetchPublicKeyErrorType.UnknownError)
  }

  /** How the verification step reports an exception of class `c`, per class. */
  function VerifyClassification(c: JavaClass): AppCheckError {
    match c
    case TokenExpiredException => VerifyJwtError(TokenExpired)
    case JWTDecodeException => VerifyJwtError(TokenIsNotValid)
    case AlgorithmMismatchException => VerifyJwtError(TokenAlgorithmIsNotCorrect)
    case SignatureVerificationException => VerifyJwtError(TokenSignatureVerificationInvalid)
    case MissingClaimException => VerifyJwtError(TokenMissingClaim)
    case IncorrectClaimException => VerifyJwtError(TokenIncorrectClaim)
    case JWTVerificationException | InvalidClaimException => VerifyJwtError(GenericJwtVerificationError)
    case _ => VerifyJwtError(VerifyJwtErrorType.UnknownError)
  }

  /** The key-fetch clauses on the `java.lang`, `java.io` and `java.net` classes. */
  lemma FetchCatchAgreesWithTableOnJavaLangClasses(c: JavaClass)
    requires c == Exception
      || c == RuntimeException
      || c == IOException
      || c == MalformedURLException
      || c == ClassCastException
    ensures FetchCatch(c) == FetchClassification(c)
  {
  }

  /** The key-fetch clauses on the other `java.lang` and `java.util` runtime classes. */
  lemma FetchCatchAgreesWithTableOnJavaRuntimeClasses(c: JavaClass)
    requires c == NullPointerException
      || c == IllegalArgumentException
      || c == IllegalStateException
      || c == IndexOutOfBoundsException
      || c == NoSuchElementException
    ensures FetchCatch(c) == FetchClassification(c)
  {
  }

  /** The key-fetch clauses on the `com.auth0.jwt` verification classes. */
  lemma FetchCatchAgreesWithTableOnJwtVerificationClasses(c: JavaClass)
    requires c == JWTVerificationException
      || c == JWTDecodeException
      || c == AlgorithmMismatchException
      || c == SignatureVerificationException
    ensures FetchCatch(c) == FetchClassification(c)
  {
  }

  /** The key-fetch clauses on the `com.auth0.jwt` expiry and claim classes. */
  lemma FetchCatchAgreesWithTableOnJwtClaimClasses(c: JavaClass)
    requires c == TokenExpiredException
      || c == InvalidClaimException
      || c == MissingClaimException
      || c == IncorrectClaimException
    ensures FetchCatch(c) == FetchClassification(c)
  {
  }

  /** The key-fetch clauses on the `com.auth0.jwk` classes. */
  lemma FetchCatchAgreesWithTableOnJwkClasses(c: JavaClass)
    requires c == JwkException
      || c == SigningKeyNotFoundException
      || c == NetworkException
      || c == RateLimitReachedException
      || c == InvalidPublicKeyException
    ensures FetchCatch(c) == FetchClassification(c)
  {
  }

  /** The key-fetch clauses on the plugin's own classes. */
  lemma FetchCatchAgreesWithTableOnAppCheckClasses(c: JavaClass)
    requires c == FirebaseAppCheckException
      || c == FirebaseAppCheckFetchPublicKeyException
      || c == FirebaseAppCheckVerifyJwtException
    ensures FetchCatch(c) == FetchClassification(c)
  {
  }

  /**
   * The key-fetch clauses, tried in order, agree with the per-class table for
   * every class. The classes are checked in groups to keep each proof small.
   */
  lemma FetchCatchAgreesWithTable(c: JavaClass)
    ensures FetchCatch(c) == FetchClassification(c)
  {
    match c
    case Exception | RuntimeException | IOException | MalformedURLException | ClassCastException =>
      FetchCatchAgreesWithTableOnJavaLangClasses(c);
    case NullPointerException | IllegalArgumentException | IllegalStateException | IndexOutOfBoundsException | NoSuchElementException =>
      FetchCatchAgreesWithTableOnJavaRuntimeClasses(c);
    case JWTVerificationException | JWTDecodeException | AlgorithmMismatchException | SignatureVerificationException =>
      FetchCatchAgreesWithTableOnJwtVerificationClasses(c);
    case TokenExpiredException | InvalidClaimException | MissingClaimException | IncorrectClaimException =>
      FetchCatchAgreesWithTableOnJwtClaimClasses(c);
    case JwkException | SigningKeyNotFoundException | NetworkException | RateLimitReachedException | InvalidPublicKeyException =>
      FetchCatchAgreesWithTableOnJwkClasses(c);
    case FirebaseAppCheckException | FirebaseAppCheckFetchPublicKeyException | FirebaseAppCheckVerifyJwtException =>
      FetchCatchAgreesWithTableOnAppCheckClasses(c);
  }

  /** The verification clauses on the `java.lang`, `java.io` and `java.net` classes. */
  lemma VerifyCatchAgreesWithTableOnJavaLangClasses(c: JavaClass)
    requires c == Exception
      || c == RuntimeException
      || c == IOException
      || c == MalformedURLException
      || c == ClassCastException
    ensures VerifyCatch(c) == VerifyClassification(c)
  {
  }

  /** The verification clauses on the other `java.lang` and `java.util` runtime classes. */
  lemma VerifyCatchAgreesWithTableOnJavaRuntimeClasses(c: JavaClass)
    requires c == NullPointerException
      || c == IllegalArgumentException
      || c == IllegalStateException
      || c == IndexOutOfBoundsException
      || c == NoSuchElementException
    ensures VerifyCatch(c) == VerifyClassification(c)
  {
  }

  /** The verification clauses on the `com.auth0.jwt` verification classes. */
  lemma VerifyCatchAgreesWithTableOnJwtVerificationClasses(c: JavaClass)
    requires c == JWTVerificationException
      || c == JWTDecodeException
      || c == AlgorithmMismatchException
      || c == SignatureVerificationException
    ensures VerifyCatch(c) == VerifyClassification(c)
  {
  }

  /** The verification clauses on the `com.auth0.jwt` expiry and claim classes. */
  lemma VerifyCatchAgreesWithTableOnJwtClaimClasses(c: JavaClass)
    requires c == TokenExpiredException
      || c == InvalidClaimException
      || c == MissingClaimException
      || c == IncorrectClaimException
    ensures VerifyCatch(c) == VerifyClassification(c)
  {
  }

  /** The verification clauses on the `com.auth0.jwk` classes. */
  lemma VerifyCatchAgreesWithTableOnJwkClasses(c: JavaClass)
    requires c == JwkException
      || c == SigningKeyNotFoundException
      || c == NetworkException
      || c == RateLimitReachedException
      || c == InvalidPublicKeyException
    ensures VerifyCatch(c) == VerifyClassification(c)
  {
  }

  /** The verification clauses on the plugin's own classes. */
  lemma VerifyCatchAgreesWithTableOnAppCheckClasses(c: JavaClass)
    requires c == FirebaseAppCheckException
      || c == FirebaseAppCheckFetchPublicKeyException
      || c == FirebaseAppCheckVerifyJwtException
    ensures VerifyCatch(c) == VerifyClassification(c)
  {
  }

  /**
   * The verification clauses, tried in order, agree with the per-class table for
   * every class. The classes are checked in groups to keep each proof small.
   */
  lemma VerifyCatchAgreesWithTable(c: JavaClass)
    ensures VerifyCatch(c) == VerifyClassification(c)
  {
    match c
    case Exception | RuntimeException | IOException | MalformedURLException | ClassCastException =>
      VerifyCatchAgreesWithTableOnJavaLangClasses(c);
    case NullPointerException | IllegalArgumentException | IllegalStateException | IndexOutOfBoundsException | NoSuchElementException =>
      VerifyCatchAgreesWithTableOnJavaRuntimeClasses(c);
    case JWTVerificationException | JWTDecodeException | AlgorithmMismatchException | SignatureVerificationException =>
      VerifyCatchAgreesWithTableOnJwtVerificationClasses(c);
    case TokenExpiredException | InvalidClaimException | MissingClaimException | IncorrectClaimException =>
      VerifyCatchAgreesWithTableOnJwtClaimClasses(c);
    case JwkException | SigningKeyNotFoundException | NetworkException | RateLimitReachedException | InvalidPublicKeyException =>
      VerifyCatchAgreesWithTableOnJwkClasses(c);
    case FirebaseAppCheckException | FirebaseAppCheckFetchPublicKeyException | FirebaseAppCheckVerifyJwtException =>
      VerifyCatchAgreesWithTableOnAppCheckClasses(c);
  }
  /** What `e.message.toString()` carries into the rethrown App Check exception. */
  function RethrownAs(e: Thrown, error: AppCheckError): (r: Thrown)
    ensures r.AppCheck? && r.error == error
    ensures MessageOf(e).Some? ==> r.message == MessageOf(e).value
    ensures MessageOf(e).None? ==> r.message == "null"
  {
    NewAppCheckException(NullableToString(MessageOf(e)), error)
  }

  /**
   * The body of the key-fetch `try`: `URL(url)`, building the provider,
   * `JWT.decode`, and `jwkProvider.get(kid).publicKey` where `kid` is the
   * header claim as a string (null when absent or not a string).
   */
  function FetchAttempt(lib: JwtLibrary, jwtString: string, settings: ProviderSettings): Result<PublicKey, Thrown> {
    match lib.openUrl(settings.url)
    case Some(e) => Failure(e)
    case None =>
      match lib.decode(jwtString)
      case Failure(e) => Failure(e)
      case Success(jwt) => lib.getPublicKey(settings, AsString(HeaderClaim(jwt, "kid")))
  }

  /**
   * `fetchFirebaseAppCheckPublicKey`: the key the provider built from `url`
   * and `config` returns for the token's `kid`, or an App Check exception
   * chosen by the first `catch` clause the failure matches.
   */
  function FetchPublicKey(lib: JwtLibrary, jwtString: string, url: string, config: FetchPublicKeyConfig): (r: Result<PublicKey, Thrown>)
    ensures r.Success? <==>
      && lib.openUrl(url).None?
      && lib.decode(jwtString).Success?
      && lib.getPublicKey(ProviderSettingsFor(url, config), AsString(HeaderClaim(lib.decode(jwtString).value, "kid"))).Success?
    ensures r.Success? ==>
      r.value == lib.getPublicKey(ProviderSettingsFor(url, config), AsString(HeaderClaim(lib.decode(jwtString).value, "kid"))).value
    ensures r.Failure? ==> r.error.AppCheck?
    ensures r.Failure? ==>
      var e := FetchAttempt(lib, jwtString, ProviderSettingsFor(url, config)).error;
      r.error == RethrownAs(e, FetchClassification(ClassOf(e)))
  {
    match FetchAttempt(lib, jwtString, ProviderSettingsFor(url, config))
    case Success(key) => Success(key)
    case Failure(e) =>
      FetchCatchAgreesWithTable(ClassOf(e));
      Failure(RethrownAs(e, FetchCatch(ClassOf(e))))
  }

  /** The audiences `withAnyOfAudience` accepts: the project number's first, then the project id's. */
  function ExpectedAudiences(projectId: string, projectNumber: string): (r: seq<string>)
    ensures |r| == 2
    ensures r[0] == "projects/" + projectNumber && r[1] == "projects/" + projectId
  {
    ["projects/" + projectNumber, "projects/" + projectId]
  }

  /** The issuer `withIssuer` demands: the issuer base URL, a slash, the project number. */
  function ExpectedIssuer(issuerBaseUrl: string, projectNumber: string): (r: string)
    ensures |r| == |issuerBaseUrl| + 1 + |projectNumber|
    ensures r[..|issuerBaseUrl|] == issuerBaseUrl && r[|issuerBaseUrl|] == '/' && r[|issuerBaseUrl| + 1..] == projectNumber
  {
    issuerBaseUrl + "/" + projectNumber
  }

  /** The verifier built for an RSA key and a project. */
  function VerificationFor(rsaKey: seq<bv8>, projectId: string, projectNumber: string, issuerBaseUrl: string): Verification {
    Verification(rsaKey, ExpectedAudiences(projectId, projectNumber), ExpectedIssuer(issuerBaseUrl, projectNumber))
  }

  /** The message of the exception thrown for a `typ` header other than "JWT". */
  function TypMismatchMessage(typ: Option<string>): string {
    "The token header of value " + NullableToString(typ) + " is not equal to 'JWT'"
  }

  /**
   * The body of the verification `try`: the cast to `RSAPublicKey`, building
   * the verifier, `verify`, and the check that the `typ` header is "JWT".
   */
  function VerifyAttempt(lib: JwtLibrary, jwtString: string, publicKey: PublicKey,
                         projectId: string, projectNumber: string, issuerBaseUrl: string): Result<DecodedJWT, Thrown> {
    match publicKey
    case OtherPublicKey(_, _, _) => Failure(Foreign(ClassCastException, None))
    case RsaPublicKey(bytes) =>
      match lib.verify(VerificationFor(bytes, projectId, projectNumber, issuerBaseUrl), jwtString)
      case Failure(e) => Failure(e)
      case Success(jwt) =>
        var typ := AsString(HeaderClaim(jwt, "typ"));
        if typ != Some("JWT") then
          Failure(NewAppCheckException(TypMismatchMessage(typ), VerifyJwtError(HeaderTypeIsNotJwt)))
        else
          Success(jwt)
  }

  /**
   * `verifyFirebaseAppCheckToken` with a key: the token as the library
   * verified it, or an App Check verification exception chosen by the first
   * `catch` clause the failure matches.
   */
  function VerifyToken(lib: JwtLibrary, jwtString: string, publicKey: PublicKey,
                       projectId: string, projectNumber: string, issuerBaseUrl: string): (r: Result<DecodedJWT, Thrown>)
    ensures r.Success? <==>
      && publicKey.RsaPublicKey?
      && lib.verify(VerificationFor(publicKey.encoded, projectId, projectNumber, issuerBaseUrl), jwtString).Success?
      && AsString(HeaderClaim(lib.verify(VerificationFor(publicKey.encoded, projectId, projectNumber, issuerBaseUrl), jwtString).value, "typ")) == Some("JWT")
    ensures r.Success? ==> r.value == lib.verify(VerificationFor(publicKey.encoded, projectId, projectNumber, issuerBaseUrl), jwtString).value
    ensures r.Failure? ==> r.error.AppCheck? && r.error.error.VerifyJwtError?
    ensures r.Failure? ==>
      var e := VerifyAttempt(lib, jwtString, publicKey, projectId, projectNumber, issuerBaseUrl).error;
      r.error == RethrownAs(e, VerifyClassification(ClassOf(e)))
  {
    match VerifyAttempt(lib, jwtString, publicKey, projectId, projectNumber, issuerBaseUrl)
    case Success(jwt) => Success(jwt)
    case Failure(e) =>
      VerifyCatchAgreesWithTable(ClassOf(e));
      Failure(RethrownAs(e, VerifyCatch(ClassOf(e))))
  }

  /**
   * The JVM library's one-call `verifyFirebaseAppCheckToken`: fetch the key
   * with the default configuration, verify, and keep only the token. A fetch
   * failure leaves unchanged.
   */
  function VerifyWithKeyFetch(lib: JwtLibrary, jwtString: string, projectId: string, projectNumber: string,
                              issuerBaseUrl: string, publicKeyUrl: string): (r: Result<VerifiedToken, Thrown>)
    ensures FetchPublicKey(lib, jwtString, publicKeyUrl, DefaultDurationFetchConfig).Failure? ==>
      r == Failure(FetchPublicKey(lib, jwtString, publicKeyUrl, DefaultDurationFetchConfig).error)
    ensures r.Success? ==> r.value.TokenOnly?
    ensures r.Failure? ==> r.error.AppCheck?
    ensures var f := FetchPublicKey(lib, jwtString, publicKeyUrl, DefaultDurationFetchConfig);
      f.Success? ==>
        var v := VerifyToken(lib, jwtString, f.value, projectId, projectNumber, issuerBaseUrl);
        && (r.Success? <==> v.Success?)
        && (v.Success? ==> r.value == TokenOnly(v.value.token))
        && (v.Failure? ==> r.error == v.error)
  {
    match FetchPublicKey(lib, jwtString, publicKeyUrl, DefaultDurationFetchConfig)
    case Failure(e) => Failure(e)
    case Success(key) =>
      match VerifyToken(lib, jwtString, key, projectId, projectNumber, issuerBaseUrl)
      case Failure(e) => Failure(e)
      case Success(jwt) => Success(TokenOnly(jwt.token))
  }

  /**
   * `NetworkException` extends `SigningKeyNotFoundException` in `jwks-rsa`,
   * so the earlier clause always takes it: the key fetch never reports a
   * network error, and reports a network failure as a missing signing key.
   */
  lemma FetchNeverReportsNetworkError(lib: JwtLibrary, jwtString: string, url: string, config: FetchPublicKeyConfig)
    ensures var r := FetchPublicKey(lib, jwtString, url, config);
      r.Failure? ==> r.error.error != FetchPublicKeyError(NetworkError)
    ensures var e := FetchAttempt(lib, jwtString, ProviderSettingsFor(url, config));
      e.Failure? && ClassOf(e.error) == NetworkException ==>
        FetchPublicKey(lib, jwtString, url, config).error.error == FetchPublicKeyError(SigningKeyNotFound)
  {
  }

  /**
   * A token `JWT.decode` rejects is reported by the key fetch as an invalid
   * token, with the decoder's message, before any key is requested.
   */
  lemma FetchOfUndecodableToken(lib: JwtLibrary, jwtString: string, url: string, config: FetchPublicKeyConfig)
    requires lib.openUrl(url).None?
    requires lib.decode(jwtString).Failure? && ClassOf(lib.decode(jwtString).error) == JWTDecodeException
    ensures FetchPublicKey(lib, jwtString, url, config)
      == Failure(AppCheck(NullableToString(MessageOf(lib.decode(jwtString).error)), VerifyJwtError(TokenIsNotValid)))
  {
  }

  /** A malformed key-set URL is an unknown fetch error, whatever the token. */
  lemma FetchWithMalformedUrl(lib: JwtLibrary, jwtString: string, url: string, config: FetchPublicKeyConfig)
    requires lib.openUrl(url).Some? && ClassOf(lib.openUrl(url).value) == MalformedURLException
    ensures FetchPublicKey(lib, jwtString, url, config).Failure?
    ensures FetchPublicKey(lib, jwtString, url, config).error.error == FetchPublicKeyError(FetchPublicKeyErrorType.UnknownError)
  {
  }

  /**
   * The exception thrown for a wrong `typ` header is caught by the
   * `catch (e: Exception)` clause of the same `try`, so it leaves as an
   * unknown verification error with the same message; the `HeaderTypeIsNotJwt`
   * kind is never reported.
   */
  lemma TypMismatchIsReportedAsUnknown(lib: JwtLibrary, jwtString: string, publicKey: PublicKey,
                                       projectId: string, projectNumber: string, issuerBaseUrl: string)
    ensures var r := VerifyToken(lib, jwtString, publicKey, projectId, projectNumber, issuerBaseUrl);
      r.Failure? ==> r.error.error != VerifyJwtError(HeaderTypeIsNotJwt)
    ensures publicKey.RsaPublicKey? ==>
      var v := lib.verify(VerificationFor(publicKey.encoded, projectId, projectNumber, issuerBaseUrl), jwtString);
      v.Success? && AsString(HeaderClaim(v.value, "typ")) != Some("JWT") ==>
        VerifyToken(lib, jwtString, publicKey, projectId, projectNumber, issuerBaseUrl)
          == Failure(AppCheck(TypMismatchMessage(AsString(HeaderClaim(v.value, "typ"))), VerifyJwtError(VerifyJwtErrorType.UnknownError)))
  {
  }

  /**
   * A key that is not an RSA key fails the cast: an unknown verification
   * error. The cast's runtime message is not modelled (it is `None`), so the
   * model's message is its rendering "null".
   */
  lemma NonRsaKeyIsUnknownError(lib: JwtLibrary, jwtString: string, publicKey: PublicKey,
                                projectId: string, projectNumber: string, issuerBaseUrl: string)
    requires publicKey.OtherPublicKey?
    ensures VerifyToken(lib, jwtString, publicKey, projectId, projectNumber, issuerBaseUrl)
      == Failure(AppCheck("null", VerifyJwtError(VerifyJwtErrorType.UnknownError)))
  {
  }

  /**
   * An expired token is its own kind when the verifier sees it. The
   * key-fetch ladder has no `TokenExpiredException` clause: were one to
   * reach it, it would be filed as a generic verification error. That case
   * is hypothetical, since `JWT.decode` does not check expiry.
   */
  lemma ExpiryDependsOnStage()
    ensures VerifyCatch(TokenExpiredException) == VerifyJwtError(TokenExpired)
    ensures FetchCatch(TokenExpiredException) == VerifyJwtError(GenericJwtVerificationError)
  {
    VerifyCatchAgreesWithTable(TokenExpiredException);
    FetchCatchAgreesWithTable(TokenExpiredException);
  }
}
