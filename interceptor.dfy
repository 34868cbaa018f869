/**
 * `verifyAppTokenRequest`, the check run on a call: read the App Check
 * header, answer 401 when it is missing or blank, call the token verifier
 * service, run the application's security check and its after-check, and
 * hand every exception thrown on the way to the error builder. The model
 * returns what the call ends with and a ghost trace of the calls made.
 */
module Interceptor {
  import opened Kotlin
  import opened Exceptions
  import opened FetchConfig
  import opened Jwt
  import opened Messages
  import opened ErrorBuilder
  import opened Service
  import opened Configuration

  /** What the interceptor reads of a call: the raw URI and the request headers, by name. */
  datatype Request = Request(uri: string, header: string -> Option<string>)

  /** The calls the interceptor makes, in the order it makes them. */
  datatype Event =
    | KeyFetched(fetchRequest: ServiceRequest)
    | TokenVerified(verifyRequest: ServiceRequest)
    | SecurityCheckRan(checked: VerifiedToken)
    | AfterSecurityCheckRan(afterChecked: VerifiedToken)
    | ErrorBuilderRan(thrown: Thrown)

  /**
   * The key-fetch configuration the interceptor passes: a fresh
   * `FetchFirebaseAppCheckPublicKeyConfig()` of the generation's type.
   */
  function FetchConfigFor(generation: Generation): (f: FetchPublicKeyConfig)
    ensures generation == Legacy ==> f == DefaultUnitFetchConfig
    ensures generation != Legacy ==> f == DefaultDurationFetchConfig
  {
    if generation == Legacy then DefaultUnitFetchConfig else DefaultDurationFetchConfig
  }

  /**
   * The arguments of the service calls for header value `token`: the token
   * itself, the project, the API base URL as issuer base, and the key-set URL.
   */
  function ServiceRequestFor(c: Config, token: string): ServiceRequest {
    ServiceRequest(token, c.settings.firebaseProjectId, c.settings.firebaseProjectNumber,
                   c.settings.firebaseAppCheckApiBaseUrl, c.settings.firebaseAppCheckPublicJwtSetUrl,
                   FetchConfigFor(c.generation))
  }

  /**
   * The service calls made for request `q`: a two-step service fetches the
   * key and verifies only with a key in hand; a one-call service is called once.
   */
  function ServiceEvents(s: TokenVerifierService, q: ServiceRequest): (t: seq<Event>)
    ensures s.TwoStep? ==> 1 <= |t| <= 2 && t[0] == KeyFetched(q)
    ensures |t| == 2 <==> s.TwoStep? && s.fetch(q.jwtString, q.publicKeyUrl, q.fetchConfig).Success?
    ensures TokenVerified(q) in t <==> s.SingleCall? || s.fetch(q.jwtString, q.publicKeyUrl, q.fetchConfig).Success?
    ensures forall i :: 0 <= i < |t| ==> t[i] == KeyFetched(q) || t[i] == TokenVerified(q)
  {
    match s
    case TwoStep(fetch, _) =>
      if fetch(q.jwtString, q.publicKeyUrl, q.fetchConfig).Success? then [KeyFetched(q), TokenVerified(q)] else [KeyFetched(q)]
    case SingleCall(_) => [TokenVerified(q)]
  }

  /** The header value the interceptor reads: the configured header of the call. */
  function HeaderToken(c: Config, request: Request): Option<string> {
    request.header(c.settings.firebaseAppCheckHeaderName)
  }

  /**
   * What `verifyAppTokenRequest` does with configuration `c` on `request`,
   * case by case: `outcome` is what the call ends with and `trace` the calls
   * made. The messages are those `c` resolves when the call is answered.
   */
  ghost predicate AppTokenVerdict(c: Config, request: Request, outcome: Outcome, trace: seq<Event>) {
    var messages := MessagesOf(c);
    var header := HeaderToken(c, request);
    && (header.None? ==>
          outcome == Respond(Unauthorized, messages.appCheckIsNotDefinedResponse) && trace == [])
    && (header.Some? && IsBlank(header.value) ==>
          outcome == Respond(Unauthorized, messages.appCheckIsEmptyResponse) && trace == [])
    && (header.Some? && !IsBlank(header.value) ==>
          var q := ServiceRequestFor(c, header.value);
          var calls := ServiceEvents(c.serviceImpl, q);
          match Call(c.serviceImpl, q)
          case Failure(e) =>
            outcome == OnError(c, e) && trace == calls + [ErrorBuilderRan(e)]
          case Success(v) =>
            match c.additionalSecurityCheck(v)
            case Failure(e) =>
              outcome == OnError(c, e) && trace == calls + [SecurityCheckRan(v), ErrorBuilderRan(e)]
            case Success(false) =>
              outcome == Respond(Unauthorized, messages.appCheckConditionFalseResponse) && trace == calls + [SecurityCheckRan(v)]
            case Success(true) =>
              match c.afterSecurityCheck(v)
              case Some(e) =>
                outcome == OnError(c, e) && trace == calls + [SecurityCheckRan(v), AfterSecurityCheckRan(v), ErrorBuilderRan(e)]
              case None =>
                outcome == Pass && trace == calls + [SecurityCheckRan(v), AfterSecurityCheckRan(v)])
  }

  /**
   * `ApplicationCall.verifyAppTokenRequest()` with the plugin's
   * configuration object. The messages are resolved first; the service is
   * called in the shape it has; a thrown exception ends the `try` and goes
   * to the error builder.
   */
  method VerifyAppTokenRequest(config: PluginConfiguration, request: Request) returns (outcome: Outcome, ghost trace: seq<Event>)
    ensures AppTokenVerdict(config.Snapshot(), request, outcome, trace)
  {
    var c := config.Snapshot();
    var messages := MessagesOf(c);
    var header := request.header(c.settings.firebaseAppCheckHeaderName);
    if header.None? {
      return Respond(Unauthorized, messages.appCheckIsNotDefinedResponse), [];
    }
    if IsBlank(header.value) {
      return Respond(Unauthorized, messages.appCheckIsEmptyResponse), [];
    }
    var q := ServiceRequestFor(c, header.value);
    var verifiedJwt: VerifiedToken;
    match c.serviceImpl {
      case TwoStep(fetch, verify) =>
        trace := [KeyFetched(q)];
        var publicKey := fetch(q.jwtString, q.publicKeyUrl, q.fetchConfig);
        if publicKey.Failure? {
          return OnError(c, publicKey.error), trace + [ErrorBuilderRan(publicKey.error)];
        }
        trace := trace + [TokenVerified(q)];
        var result := verify(q.jwtString, publicKey.value, q.projectId, q.projectNumber, q.issuerBaseUrl);
        if result.Failure? {
          return OnError(c, result.error), trace + [ErrorBuilderRan(result.error)];
        }
        verifiedJwt := result.value;
      case SingleCall(verifyToken) =>
        trace := [TokenVerified(q)];
        var result := verifyToken(q.jwtString, q.projectId, q.projectNumber, q.issuerBaseUrl, q.publicKeyUrl);
        if result.Failure? {
          return OnError(c, result.error), trace + [ErrorBuilderRan(result.error)];
        }
        verifiedJwt := result.value;
    }
    assert Call(c.serviceImpl, q) == Success(verifiedJwt);
    trace := trace + [SecurityCheckRan(verifiedJwt)];
    var isShouldContinue := c.additionalSecurityCheck(verifiedJwt);
    if isShouldContinue.Failure? {
      return OnError(c, isShouldContinue.error), trace + [ErrorBuilderRan(isShouldContinue.error)];
    }
    if !isShouldContinue.value {
      return Respond(Unauthorized, messages.appCheckConditionFalseResponse), trace;
    }
    trace := trace + [AfterSecurityCheckRan(verifiedJwt)];
    var thrown := c.afterSecurityCheck(verifiedJwt);
    if thrown.Some? {
      return OnError(c, thrown.value), trace + [ErrorBuilderRan(thrown.value)];
    }
    return Pass, trace;
  }

  /** The verdict leaves nothing open: one outcome and one trace per configuration and call. */
  lemma VerdictIsDetermined(c: Config, request: Request, o1: Outcome, t1: seq<Event>, o2: Outcome, t2: seq<Event>)
    requires AppTokenVerdict(c, request, o1, t1) && AppTokenVerdict(c, request, o2, t2)
    ensures o1 == o2 && t1 == t2
  {
  }

  /**
   * The service is called only for a present, non-blank header, with the
   * header value verbatim (no "Bearer " prefix is stripped) and the
   * configured project, issuer base and key-set URL.
   */
  lemma ServiceCalledWithHeaderVerbatim(c: Config, request: Request, outcome: Outcome, trace: seq<Event>, q: ServiceRequest)
    requires AppTokenVerdict(c, request, outcome, trace)
    requires KeyFetched(q) in trace || TokenVerified(q) in trace
    ensures HeaderToken(c, request).Some? && !IsBlank(HeaderToken(c, request).value)
    ensures q.jwtString == HeaderToken(c, request).value
    ensures q == ServiceRequestFor(c, q.jwtString)
  {
  }

  /** The error builder runs at most once, as the last call, and decides the outcome. */
  lemma ErrorBuilderRunsLast(c: Config, request: Request, outcome: Outcome, trace: seq<Event>)
    requires AppTokenVerdict(c, request, outcome, trace)
    ensures forall i :: 0 <= i < |trace| - 1 ==> !trace[i].ErrorBuilderRan?
    ensures forall e :: ErrorBuilderRan(e) in trace ==> outcome == OnError(c, e)
  {
  }

  /**
   * The callbacks see only a token the service returned; the after-check
   * runs only once the security check has accepted that token.
   */
  lemma CallbacksSeeVerifiedToken(c: Config, request: Request, outcome: Outcome, trace: seq<Event>, v: VerifiedToken)
    requires AppTokenVerdict(c, request, outcome, trace)
    ensures SecurityCheckRan(v) in trace ==>
      Call(c.serviceImpl, ServiceRequestFor(c, HeaderToken(c, request).value)) == Success(v)
    ensures AfterSecurityCheckRan(v) in trace ==>
      SecurityCheckRan(v) in trace && c.additionalSecurityCheck(v) == Success(true)
  {
  }

  /** A two-step service whose key fetch fails is not asked to verify, and no callback runs. */
  lemma FetchFailureSkipsVerification(c: Config, request: Request, outcome: Outcome, trace: seq<Event>)
    requires AppTokenVerdict(c, request, outcome, trace)
    requires c.serviceImpl.TwoStep?
    requires var header := HeaderToken(c, request);
      header.Some? && c.serviceImpl.fetch(header.value, c.settings.firebaseAppCheckPublicJwtSetUrl, FetchConfigFor(c.generation)).Failure?
    ensures forall i :: 0 <= i < |trace| ==> !trace[i].TokenVerified? && !trace[i].SecurityCheckRan? && !trace[i].AfterSecurityCheckRan?
  {
  }

  /**
   * With the default error builder a call goes on exactly when the header is
   * present and not blank, the service returns a token, the security check
   * accepts it and the after-check throws nothing.
   */
  lemma DefaultBuilderPassesExactlyAccepted(c: Config, request: Request, outcome: Outcome, trace: seq<Event>)
    requires AppTokenVerdict(c, request, outcome, trace)
    requires c.errorBuilder.DefaultErrorBuilder?
    ensures outcome.Pass? <==>
      var header := HeaderToken(c, request);
      && header.Some? && !IsBlank(header.value)
      && var r := Call(c.serviceImpl, ServiceRequestFor(c, header.value));
      && r.Success?
      && c.additionalSecurityCheck(r.value) == Success(true)
      && c.afterSecurityCheck(r.value).None?
  {
  }

  /**
   * With the production service of the configuration's generation and the
   * default error builder, a failed verification is answered from the App
   * Check table, never with the generic fallback for other exceptions.
   */
  lemma ProductionFailuresAnsweredByKind(lib: JwtLibrary, c: Config, request: Request, outcome: Outcome, trace: seq<Event>)
    requires AppTokenVerdict(c, request, outcome, trace)
    requires c.errorBuilder.DefaultErrorBuilder? && c.serviceImpl == DefaultService(c.generation, lib)
    requires var header := HeaderToken(c, request);
      header.Some? && !IsBlank(header.value) && Call(c.serviceImpl, ServiceRequestFor(c, header.value)).Failure?
    ensures var e := Call(c.serviceImpl, ServiceRequestFor(c, HeaderToken(c, request).value)).error;
      e.AppCheck? && outcome == DefaultErrorResponse(e, MessagesOf(c))
  {
    var q := ServiceRequestFor(c, HeaderToken(c, request).value);
    ProductionFailuresAreAppCheck(lib, q);
  }

  /**
   * With the library's default message builder, a missing header is
   * reported under the header name the configuration reads.
   */
  lemma BuiltMessagesNameTheHeaderRead(c: Config, request: Request, outcome: Outcome, trace: seq<Event>)
    requires AppTokenVerdict(c, request, outcome, trace)
    requires c.messageSource == DefaultPluginMessagesBuilder && HeaderToken(c, request).None?
    ensures outcome.Respond? && NotDefinedHeaderName(outcome.body) == Some(c.settings.firebaseAppCheckHeaderName)
  {
    DefaultMessagesNameTheHeader(c.settings.firebaseAppCheckHeaderName);
  }

  /**
   * The earliest generation's messages were built for the header name the
   * object was constructed with: a missing header is reported under that
   * name, even when the header actually read was renamed afterwards.
   */
  lemma LegacyMessagesNameTheConstructionHeader(c: Config, request: Request, outcome: Outcome, trace: seq<Event>, builtFor: string)
    requires AppTokenVerdict(c, request, outcome, trace)
    requires c.messageSource == DefaultPluginMessages(builtFor) && HeaderToken(c, request).None?
    ensures outcome.Respond? && NotDefinedHeaderName(outcome.body) == Some(builtFor)
  {
    DefaultMessagesNameTheHeader(builtFor);
  }
}
