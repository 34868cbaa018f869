/**
 * The token verifier service as the interceptor sees it. The earlier
 * generations call it in two steps (fetch the key, then verify with it); the
 * multiplatform library calls one method that does both. The interceptor's
 * call sequence follows the shape of the service it is given.
 */
module Service {
  import opened Kotlin
  import opened Exceptions
  import opened FetchConfig
  import opened Jwt
  import opened Verifier
  import opened Mocks

  /**
   * `TwoStep`: `fetchFirebaseAppCheckPublicKey(jwtString, url, config)` and
   * `verifyFirebaseAppCheckToken(jwtString, publicKey, projectId, projectNumber, issuerBaseUrl)`.
   * `SingleCall`: `verifyFirebaseAppCheckToken(jwt, projectId, projectNumber, issuerBaseUrl, publicKeyUrl)`.
   */
  datatype TokenVerifierService =
    | TwoStep(fetch: (string, string, FetchPublicKeyConfig) -> Result<PublicKey, Thrown>,
              verify: (string, PublicKey, string, string, string) -> Result<VerifiedToken, Thrown>)
    | SingleCall(verifyToken: (string, string, string, string, string) -> Result<VerifiedToken, Thrown>)

  /** What the interceptor passes to the service on one request. */
  datatype ServiceRequest = ServiceRequest(
    jwtString: string,
    projectId: string,
    projectNumber: string,
    issuerBaseUrl: string,
    publicKeyUrl: string,
    fetchConfig: FetchPublicKeyConfig)

  /**
   * The result of the calls the interceptor makes: for a two-step service
   * the key fetch, and the verification only when the fetch returned a key;
   * for a one-call service that call. The fetch configuration is used only
   * by a two-step service.
   */
  function Call(s: TokenVerifierService, q: ServiceRequest): (r: Result<VerifiedToken, Thrown>)
    ensures s.TwoStep? && s.fetch(q.jwtString, q.publicKeyUrl, q.fetchConfig).Failure? ==>
      r == Failure(s.fetch(q.jwtString, q.publicKeyUrl, q.fetchConfig).error)
    ensures s.TwoStep? && s.fetch(q.jwtString, q.publicKeyUrl, q.fetchConfig).Success? ==>
      r == s.verify(q.jwtString, s.fetch(q.jwtString, q.publicKeyUrl, q.fetchConfig).value,
                    q.projectId, q.projectNumber, q.issuerBaseUrl)
    ensures s.SingleCall? ==> r == s.verifyToken(q.jwtString, q.projectId, q.projectNumber, q.issuerBaseUrl, q.publicKeyUrl)
  {
    match s
    case TwoStep(fetch, verify) =>
      (match fetch(q.jwtString, q.publicKeyUrl, q.fetchConfig)
       case Failure(e) => Failure(e)
       case Success(key) => verify(q.jwtString, key, q.projectId, q.projectNumber, q.issuerBaseUrl))
    case SingleCall(verifyToken) =>
      verifyToken(q.jwtString, q.projectId, q.projectNumber, q.issuerBaseUrl, q.publicKeyUrl)
  }

  /** The global verifier of the earliest generation: a two-step service that returns the library's token. */
  function LegacyService(lib: JwtLibrary): (s: TokenVerifierService)
    ensures s.TwoStep?
  {
    TwoStep((jwtString, url, config) => FetchPublicKey(lib, jwtString, url, config),
            (jwtString, key, projectId, projectNumber, base) =>
              match VerifyToken(lib, jwtString, key, projectId, projectNumber, base)
              case Success(jwt) => Success(Decoded(jwt))
              case Failure(e) => Failure(e))
  }

  /** The JVM implementation's fetch and verify steps, as the JVM interceptor calls them in turn. */
  function JvmTwoStepService(lib: JwtLibrary): (s: TokenVerifierService)
    ensures s.TwoStep?
  {
    TwoStep((jwtString, url, config) => FetchPublicKey(lib, jwtString, url, config),
            (jwtString, key, projectId, projectNumber, base) =>
              match VerifyToken(lib, jwtString, key, projectId, projectNumber, base)
              case Success(jwt) => Success(TokenOnly(jwt.token))
              case Failure(e) => Failure(e))
  }

  /** `FirebaseAppCheckTokenVerifierServiceImpl()`, the multiplatform library's one-call service. */
  function JvmService(lib: JwtLibrary): (s: TokenVerifierService)
    ensures s.SingleCall?
  {
    SingleCall((jwtString, projectId, projectNumber, base, url) =>
      VerifyWithKeyFetch(lib, jwtString, projectId, projectNumber, base, url))
  }

  /** The older test double, a two-step service. */
  function MockLegacyService(lib: JwtLibrary): (s: TokenVerifierService)
    ensures s.TwoStep?
  {
    TwoStep((jwtString, url, config) => MockFetchPublicKey(jwtString, url, config),
            (jwtString, key, projectId, projectNumber, base) =>
              MockVerifyToken(lib, jwtString, key, projectId, projectNumber, base))
  }

  /** The multiplatform test double, a one-call service. */
  function MockService(lib: JwtLibrary): (s: TokenVerifierService)
    ensures s.SingleCall?
  {
    SingleCall((jwtString, projectId, projectNumber, base, url) =>
      MockVerifyWithKeyFetch(lib, jwtString, projectId, projectNumber, base, url))
  }

  /**
   * The one-call service is the two steps in sequence with the default fetch
   * configuration: the JVM interceptor's two calls and the multiplatform
   * interceptor's one call give the same result for every request.
   */
  lemma SingleCallIsFetchThenVerify(lib: JwtLibrary, q: ServiceRequest)
    requires q.fetchConfig == DefaultDurationFetchConfig
    ensures Call(JvmService(lib), q) == Call(JvmTwoStepService(lib), q)
  {
    var f := FetchPublicKey(lib, q.jwtString, q.publicKeyUrl, q.fetchConfig);
    if f.Success? {
      assert Call(JvmTwoStepService(lib), q)
          == (match VerifyToken(lib, q.jwtString, f.value, q.projectId, q.projectNumber, q.issuerBaseUrl)
              case Success(jwt) => Success(TokenOnly(jwt.token))
              case Failure(e) => Failure(e));
    }
  }

  /**
   * Every failure of the production services is an App Check exception: the
   * ladders leave nothing else escaping, so the error builder's fallback
   * branch is never reached from them.
   */
  lemma ProductionFailuresAreAppCheck(lib: JwtLibrary, q: ServiceRequest)
    ensures Call(LegacyService(lib), q).Failure? ==> Call(LegacyService(lib), q).error.AppCheck?
    ensures Call(JvmTwoStepService(lib), q).Failure? ==> Call(JvmTwoStepService(lib), q).error.AppCheck?
    ensures Call(JvmService(lib), q).Failure? ==> Call(JvmService(lib), q).error.AppCheck?
  {
    var f := FetchPublicKey(lib, q.jwtString, q.publicKeyUrl, q.fetchConfig);
    if f.Success? {
      var v := VerifyToken(lib, q.jwtString, f.value, q.projectId, q.projectNumber, q.issuerBaseUrl);
      assert Call(LegacyService(lib), q) == (if v.Success? then Success(Decoded(v.value)) else Failure(v.error));
      assert Call(JvmTwoStepService(lib), q) == (if v.Success? then Success(TokenOnly(v.value.token)) else Failure(v.error));
    }
  }

  /**
   * A test double's failure need not be an App Check exception: a token
   * whose only audience is the project number makes it throw
   * `IndexOutOfBoundsException`, which the default error builder answers
   * with its generic 500.
   */
  lemma MockFailureMayBeForeign(lib: JwtLibrary, q: ServiceRequest)
    requires lib.decode(q.jwtString).Success?
    requires lib.decode(q.jwtString).value.audience == Some(["projects/" + q.projectNumber])
    ensures Call(MockService(lib), q) == Failure(Foreign(IndexOutOfBoundsException, None))
    ensures Call(MockLegacyService(lib), q) == Failure(Foreign(IndexOutOfBoundsException, None))
  {
    SingleAudienceEscapesMock(lib, q.jwtString, q.projectId, q.projectNumber);
  }

  /**
   * The test doubles check, position by position, the same two audiences
   * the production verifier accepts in any order: a token they accept
   * starts with exactly `ExpectedAudiences`.
   */
  lemma MockAudiencesAreTheExpectedOnes(jwt: DecodedJWT, projectId: string, projectNumber: string)
    requires MockAccepts(jwt, projectId, projectNumber)
    ensures jwt.audience.value[..2] == ExpectedAudiences(projectId, projectNumber)
  {
  }
}
