/**
 * The two test doubles of the token verifier service. Neither checks a
 * signature: each decodes the token and compares its audiences and issuer
 * with the project, position by position. The multiplatform test double
 * returns the plugin's `DecodedJwt`; the older one returns the library's
 * `DecodedJWT` and hands out a placeholder key.
 */
module Mocks {
  import opened Kotlin
  import opened Exceptions
  import opened FetchConfig
  import opened Jwt

  /** `PublicKeyMock`: algorithm "RS256", format "JWT", no encoded bytes; not an RSA key. */
  const MockPublicKey: PublicKey := OtherPublicKey("RS256", "JWT", [])

  /** The issuer prefix the test doubles hard-code, whatever issuer base URL they are given. */
  const MockIssuerPrefix := "https://firebaseappcheck.googleapis.com/"

  /** The key fetch of the older test double: always the placeholder key. */
  function MockFetchPublicKey(jwtString: string, url: string, config: FetchPublicKeyConfig): (r: Result<PublicKey, Thrown>)
    ensures r.Success? && r.value.OtherPublicKey?
    ensures r.value.algorithm == "RS256" && r.value.format == "JWT" && r.value.encoded == []
  {
    Success(MockPublicKey)
  }

  /** The older test double hands out the same placeholder key whatever token, URL and configuration it is given. */
  lemma MockFetchIgnoresInputs(jwt1: string, url1: string, config1: FetchPublicKeyConfig,
                               jwt2: string, url2: string, config2: FetchPublicKeyConfig)
    ensures MockFetchPublicKey(jwt1, url1, config1) == MockFetchPublicKey(jwt2, url2, config2)
  {
  }

  /** `"$e"` for a `JWTDecodeException`: its qualified class name, then ": " and the message if it has one. */
  function DecodeExceptionText(message: Option<string>): (r: string)
    ensures message.None? ==> r == "com.auth0.jwt.exceptions.JWTDecodeException"
    ensures message.Some? ==> r == "com.auth0.jwt.exceptions.JWTDecodeException: " + message.value
  {
    "com.auth0.jwt.exceptions.JWTDecodeException" + (if message.Some? then ": " + message.value else "")
  }

  /** The mismatch message the test doubles build: "The <found> is not equal to projects/<expected>". */
  function MismatchMessage(found: string, expected: string): string {
    "The " + found + " is not equal to projects/" + expected
  }

  /**
   * The checks on a decoded token, in source order: `audience.first()`
   * (a null audience list throws `NullPointerException`, an empty one
   * `NoSuchElementException`), `audience[1]` (a one-element list throws
   * `IndexOutOfBoundsException`), then the issuer.
   */
  function MockClaimChecks(jwt: DecodedJWT, projectId: string, projectNumber: string): (r: Result<DecodedJWT, Thrown>)
    ensures r.Success? <==> MockAccepts(jwt, projectId, projectNumber)
    ensures r.Success? ==> r.value == jwt
    ensures r.Failure? && r.error.AppCheck? ==> r.error.error == VerifyJwtError(GenericJwtVerificationError)
    ensures r.Failure? && r.error.Foreign? ==>
      r.error.cls in {NullPointerException, NoSuchElementException, IndexOutOfBoundsException}
  {
    if jwt.audience.None? then
      Failure(Foreign(NullPointerException, None))
    else if |jwt.audience.value| == 0 then
      Failure(Foreign(NoSuchElementException, Some("List is empty.")))
    else if jwt.audience.value[0] != "projects/" + projectNumber then
      Failure(AppCheck(MismatchMessage(jwt.audience.value[0], projectNumber), VerifyJwtError(GenericJwtVerificationError)))
    else if |jwt.audience.value| < 2 then
      Failure(Foreign(IndexOutOfBoundsException, None))
    else if jwt.audience.value[1] != "projects/" + projectId then
      Failure(AppCheck(MismatchMessage(jwt.audience.value[1], projectId), VerifyJwtError(GenericJwtVerificationError)))
    else if jwt.issuer != Some(MockIssuerPrefix + projectNumber) then
      Failure(AppCheck(MismatchMessage(NullableToString(jwt.issuer), projectNumber), VerifyJwtError(GenericJwtVerificationError)))
    else
      Success(jwt)
  }

  /** The token a test double accepts: two audiences, number first and id second, and the hard-coded issuer. */
  predicate MockAccepts(jwt: DecodedJWT, projectId: string, projectNumber: string) {
    && jwt.audience.Some?
    && |jwt.audience.value| >= 2
    && jwt.audience.value[0] == "projects/" + projectNumber
    && jwt.audience.value[1] == "projects/" + projectId
    && jwt.issuer == Some(MockIssuerPrefix + projectNumber)
  }

  /**
   * The shared body of both test doubles' verification: `JWT.decode`, the
   * claim checks, and a `catch` of `JWTDecodeException` only; everything
   * else the checks throw leaves as it is.
   */
  function MockCheck(lib: JwtLibrary, jwtString: string, projectId: string, projectNumber: string): (r: Result<DecodedJWT, Thrown>)
    ensures r.Success? <==> lib.decode(jwtString).Success? && MockAccepts(lib.decode(jwtString).value, projectId, projectNumber)
    ensures r.Success? ==> r.value == lib.decode(jwtString).value
    ensures lib.decode(jwtString).Failure? && ClassOf(lib.decode(jwtString).error) == JWTDecodeException ==>
      r == Failure(AppCheck("Token is not valid: " + DecodeExceptionText(MessageOf(lib.decode(jwtString).error)),
                            VerifyJwtError(TokenIsNotValid)))
    ensures lib.decode(jwtString).Failure? && ClassOf(lib.decode(jwtString).error) != JWTDecodeException ==>
      r == lib.decode(jwtString)
    ensures lib.decode(jwtString).Success? ==> r == MockClaimChecks(lib.decode(jwtString).value, projectId, projectNumber)
  {
    match lib.decode(jwtString)
    case Failure(e) =>
      if IsA(ClassOf(e), JWTDecodeException) then
        Failure(AppCheck("Token is not valid: " + DecodeExceptionText(MessageOf(e)), VerifyJwtError(TokenIsNotValid)))
      else
        Failure(e)
    case Success(jwt) => MockClaimChecks(jwt, projectId, projectNumber)
  }

  /** The older test double's `verifyFirebaseAppCheckToken`: the key and issuer base URL are not used. */
  function MockVerifyToken(lib: JwtLibrary, jwtString: string, publicKey: PublicKey,
                           projectId: string, projectNumber: string, issuerBaseUrl: string): (r: Result<VerifiedToken, Thrown>)
    ensures r.Success? <==> MockCheck(lib, jwtString, projectId, projectNumber).Success?
    ensures r.Success? ==> r.value == Decoded(MockCheck(lib, jwtString, projectId, projectNumber).value)
    ensures r.Failure? ==> r.error == MockCheck(lib, jwtString, projectId, projectNumber).error
  {
    match MockCheck(lib, jwtString, projectId, projectNumber)
    case Success(jwt) => Success(Decoded(jwt))
    case Failure(e) => Failure(e)
  }

  /** The multiplatform test double's one-call `verifyFirebaseAppCheckToken`: it keeps only the token. */
  function MockVerifyWithKeyFetch(lib: JwtLibrary, jwtString: string, projectId: string, projectNumber: string,
                                  issuerBaseUrl: string, publicKeyUrl: string): (r: Result<VerifiedToken, Thrown>)
    ensures r.Success? <==> MockCheck(lib, jwtString, projectId, projectNumber).Success?
    ensures r.Success? ==> r.value == TokenOnly(lib.decode(jwtString).value.token)
    ensures r.Failure? ==> r.error == MockCheck(lib, jwtString, projectId, projectNumber).error
  {
    match MockCheck(lib, jwtString, projectId, projectNumber)
    case Success(jwt) => Success(TokenOnly(jwt.token))
    case Failure(e) => Failure(e)
  }

  /**
   * The test doubles ignore the issuer base URL, the key and the key-set
   * URL: the outcome depends on the token and the project alone.
   */
  lemma MockIgnoresUrlsAndKey(lib: JwtLibrary, jwtString: string, projectId: string, projectNumber: string,
                              key1: PublicKey, key2: PublicKey, base1: string, base2: string, url1: string, url2: string)
    ensures MockVerifyToken(lib, jwtString, key1, projectId, projectNumber, base1)
         == MockVerifyToken(lib, jwtString, key2, projectId, projectNumber, base2)
    ensures MockVerifyWithKeyFetch(lib, jwtString, projectId, projectNumber, base1, url1)
         == MockVerifyWithKeyFetch(lib, jwtString, projectId, projectNumber, base2, url2)
  {
  }

  /**
   * A token with the project number as its only audience passes the
   * production verifier's any-of-audience test, but makes the test double's
   * `audience[1]` throw an exception that is not an App Check exception.
   */
  lemma SingleAudienceEscapesMock(lib: JwtLibrary, jwtString: string, projectId: string, projectNumber: string)
    requires lib.decode(jwtString).Success?
    requires lib.decode(jwtString).value.audience == Some(["projects/" + projectNumber])
    ensures MockCheck(lib, jwtString, projectId, projectNumber) == Failure(Foreign(IndexOutOfBoundsException, None))
    ensures !MockCheck(lib, jwtString, projectId, projectNumber).error.AppCheck?
  {
  }

  /** The checks fail in source order: a wrong first audience is reported before a missing second one or a wrong issuer. */
  lemma MockReportsFirstAudienceFirst(jwt: DecodedJWT, projectId: string, projectNumber: string)
    requires jwt.audience.Some? && |jwt.audience.value| > 0
    requires jwt.audience.value[0] != "projects/" + projectNumber
    ensures MockClaimChecks(jwt, projectId, projectNumber)
      == Failure(AppCheck("The " + jwt.audience.value[0] + " is not equal to projects/" + projectNumber,
                          VerifyJwtError(GenericJwtVerificationError)))
  {
  }

  /** With the first audience right, a wrong second audience is reported, against the project id. */
  lemma MockReportsSecondAudience(jwt: DecodedJWT, projectId: string, projectNumber: string)
    requires jwt.audience.Some? && |jwt.audience.value| >= 2
    requires jwt.audience.value[0] == "projects/" + projectNumber
    requires jwt.audience.value[1] != "projects/" + projectId
    ensures MockClaimChecks(jwt, projectId, projectNumber)
      == Failure(AppCheck("The " + jwt.audience.value[1] + " is not equal to projects/" + projectId,
                          VerifyJwtError(GenericJwtVerificationError)))
  {
  }

  /**
   * With both audiences right, a wrong or missing issuer is reported, as
   * its string form ("null" when missing), against the project number.
   */
  lemma MockReportsIssuer(jwt: DecodedJWT, projectId: string, projectNumber: string)
    requires jwt.audience.Some? && |jwt.audience.value| >= 2
    requires jwt.audience.value[0] == "projects/" + projectNumber
    requires jwt.audience.value[1] == "projects/" + projectId
    requires jwt.issuer != Some(MockIssuerPrefix + projectNumber)
    ensures MockClaimChecks(jwt, projectId, projectNumber)
      == Failure(AppCheck("The " + NullableToString(jwt.issuer) + " is not equal to projects/" + projectNumber,
                          VerifyJwtError(GenericJwtVerificationError)))
    ensures jwt.issuer.None? ==>
      MockClaimChecks(jwt, projectId, projectNumber).error.message == "The null is not equal to projects/" + projectNumber
  {
  }
}
