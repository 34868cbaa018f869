# Firebase App Check for Ktor, modelled in Dafny

This project models the decision core of the Ktor server plugin that puts
Firebase App Check token verification in front of HTTP routes.

The repository has three generations of that core, and the model covers all
three with one shared model, parameterised by `Configuration.Generation`:

- `Legacy`: the plugin under `src/main`.
  - A global token verifier is called in two steps: fetch the signing key, then verify.
  - The response messages are computed once, when the configuration object is built.
  - Verification is decided from `environment?.developmentMode`.
- `Jvm`: the library's JVM source set.
  - A `serviceImpl` setting is called in two steps.
  - The messages are rebuilt by `pluginMessagesBuilder` on every request.
  - The configuration class of `src/main/.../core/FirebaseAppCheck.kt` (package `core`) is this one, so the holder-based install of that file is modelled at this generation.
- `Multiplatform`: the library's common source set.
  - A one-call `serviceImpl`.
  - The Boolean `pipeline.developmentMode`.

What is modelled:

- **Whether to verify.**
  - `isShouldVerifyToken`.
  - The `require` checks of `install` on the project number and id.
  - Registering the pipeline interceptor.
  - The strategy dispatch inside that interceptor.
  - `protectRouteWithAppCheck`, which wraps routes.
- **The per-call check `verifyAppTokenRequest`.**
  - It is an imperative method over the configuration object.
  - It is proved against a case-by-case verdict, `Interceptor.AppTokenVerdict`, which fixes both the outcome and the order of the calls made.
- **Error classification.**
  - The first-match `catch` ladders of the key fetch and the token verification, over an explicit Java exception hierarchy.
  - The default `errorBuilder` table: status and message field per error kind.
- **The two test doubles** of the verifier service, whose positional audience checks the test suites rely on.
- **Supporting data.**
  - The error enums and the securing strategy.
  - The default message set, which embeds the header name.
  - The key-fetch configuration defaults of both library generations.

Inputs the plugin takes from outside are parameters of the model:

- The auth0 `java-jwt` and `jwks-rsa` libraries are the oracle `Jwt.JwtLibrary`. It says what `URL(url)`, `JWT.decode`, `jwkProvider.get(kid)` and `verifier.verify` return or throw.
- The request is a header lookup and a raw URI.
- The development flag is a pipeline field.
- Application callbacks are arrow-typed fields of the configuration.

Notes where the sources disagree with each other:

- **The JVM key-fetch service.** The JVM interceptor (`library/src/jvmMain/.../utils/extensions/ApplicationCallExtensions.kt:41-52`) calls `serviceImpl` in two steps. The JVM `FirebaseAppCheckTokenVerifierServiceImpl` implements these steps only as private helpers behind the one-call method. The model's JVM service, `Service.JvmTwoStepService`, is therefore those two helpers. `Service.SingleCallIsFetchThenVerify` proves it gives the same result as the one-call method.
- **The two exception packages.** The JVM configuration (`library/src/jvmMain/.../core/FirebaseAppCheckPluginConfiguration.kt:7-12`) and the JVM tests import the App Check exceptions and error types from a package `...firebase_app_check.exceptions`. The JVM service and the test doubles throw the root-package classes of `library/src/commonMain/.../FirebaseAppCheckExceptions.kt`. The model treats both as the same classes, as the tests' `assertFailsWith` checks imply.
- **The multiplatform configuration class.** Its source file (`configurations/FirebaseAppCheckPluginConfiguration.kt`) is not part of this model. The multiplatform configuration is taken to have the JVM class's fields and defaults. `firebaseAppCheckPublicKeyUrl` is read as the key-set URL field.

## Model

| member | source | states |
|---|---|---|
| Exceptions.EveryClassIsException | src/main/kotlin/net/freshplatform/ktor_server/firebase_app_check/FirebaseAppCheckTokenVerifierImpl.kt:91-95 | every exception class the plugin meets is an `Exception`, so the last `catch (e: Exception)` clause catches whatever the earlier ones let through |
| Exceptions.ClassOf | library/src/commonMain/kotlin/net/freshplatform/ktor_server/firebase_app_check/FirebaseAppCheckExceptions.kt:29-32 | an App Check exception is a `FirebaseAppCheckException`, and its class is the fetch or the verify subclass exactly according to its error family; any other exception keeps its own class |
| Exceptions.MessageOf | library/src/commonMain/kotlin/net/freshplatform/ktor_server/firebase_app_check/FirebaseAppCheckExceptions.kt:8-10 | an App Check exception's message is the one it was built with and is never null; a foreign exception's message may be null |
| Exceptions.NewAppCheckException | library/src/commonMain/kotlin/net/freshplatform/ktor_server/firebase_app_check/FirebaseAppCheckExceptions.kt:55-58 | the built exception carries exactly the given message and error type, and belongs to exactly one of the two families |
| Exceptions.ErrorTypeCounts | library/src/commonMain/kotlin/net/freshplatform/ktor_server/firebase_app_check/FirebaseAppCheckExceptions.kt:15-47 | the fetch enum has exactly five distinct kinds and the verify enum exactly nine, and every value is one of them |
| FetchConfig.ProviderSettingsFor | library/src/jvmMain/kotlin/net/freshplatform/ktor_server/firebase_app_check/FirebaseAppCheckTokenVerifierServiceImpl.kt:46-57 | the JWKS provider is built for the given URL, with a duration cache exactly when the configuration is the multiplatform shape |
| FetchConfig.ProviderSettingsRoundTrip | src/main/kotlin/net/freshplatform/ktor_server/firebase_app_check/FirebaseAppCheckTokenVerifierImpl.kt:22-36 | every configured cache and rate-limit value reaches the provider builder: the configuration can be read back from what the builder received |
| FetchConfig.DefaultFetchConfigs | library/src/commonMain/kotlin/net/freshplatform/ktor_server/firebase_app_check/service/FirebaseAppCheckTokenVerifierService.kt:15-39 | both defaults cache 10 keys for 24 hours; the multiplatform default enables rate limiting, and the earlier one (library/src/main/.../services/FirebaseAppCheckTokenVerifierService.kt:14-45) uses a bucket of 10 refilled by 1 per minute |
| Messages.Override | library/src/jvmMain/kotlin/net/freshplatform/ktor_server/firebase_app_check/utils/FirebaseAppCheckResponses.kt:9-28 | giving one message explicitly, with any value, sets that message and leaves every other message at its previous value |
| Messages.DefaultMessages | library/src/jvmMain/kotlin/net/freshplatform/ktor_server/firebase_app_check/utils/FirebaseAppCheckResponses.kt:11-28 | every default is a text; the condition-false text is "App check token is not verified."; the JWK and unknown-fetch texts are identical |
| Messages.DefaultMessagesNameTheHeader | library/src/jvmMain/kotlin/net/freshplatform/ktor_server/firebase_app_check/utils/FirebaseAppCheckResponses.kt:11-12 | the not-defined and empty-header defaults each embed exactly the configured header name, which can be read back from the text |
| Messages.DefaultMessagesDetermineHeader | library/src/jvmMain/kotlin/net/freshplatform/ktor_server/firebase_app_check/utils/FirebaseAppCheckResponses.kt:10-28 | the defaults depend on the configuration only through the header name, and two header names give equal defaults if and only if they are equal |
| ErrorBuilder.DefaultErrorResponse | library/src/jvmMain/kotlin/net/freshplatform/ktor_server/firebase_app_check/core/FirebaseAppCheckPluginConfiguration.kt:55-173 | the default error builder always responds; a foreign exception gets 500 with the unknown-error message; a verify error gets 401, except the generic one, which gets 500 |
| ErrorBuilder.ErrorFieldIsInjective | library/src/jvmMain/kotlin/net/freshplatform/ktor_server/firebase_app_check/core/FirebaseAppCheckPluginConfiguration.kt:58-172 | distinct App Check kinds are answered with distinct message fields, none of them a field the interceptor uses itself and none the generic one |
| ErrorBuilder.DefaultErrorBody | library/src/jvmMain/kotlin/net/freshplatform/ktor_server/firebase_app_check/core/FirebaseAppCheckPluginConfiguration.kt:58-172 | the body is the message field of the exception's kind, or `unknownErrorResponse` for any other exception |
| ErrorBuilder.DefaultErrorStatus | src/main/kotlin/net/freshplatform/ktor_server/firebase_app_check/FirebaseAppCheckPluginConfiguration.kt:62-173 | status by kind, each an if-and-only-if: 401 for every verify kind but the generic one; 404, 502 and 429 for a missing key, a network error and the rate limit; 500 for the generic verify error, the JWK and unknown fetch errors, and every foreign exception |
| ErrorBuilder.DefaultErrorResponseOfDefaultMessages | library/src/jvmMain/kotlin/net/freshplatform/ktor_server/firebase_app_check/utils/FirebaseAppCheckResponses.kt:26-27 | with the default messages, a JWK error and an unknown fetch error get the same response, and no error response depends on the header name |
| Strategy.VerifiedByPipelineExactly | library/src/jvmMain/kotlin/net/freshplatform/ktor_server/firebase_app_check/FirebaseAppCheck.kt:39-62 | the pipeline verifies a call if and only if verification is on and the strategy is `ProtectAll`, or is `ProtectRoutesByPaths` and lists the raw URI |
| Strategy.SpecificRoutesNeverPipelineVerified | src/main/kotlin/net/freshplatform/ktor_server/firebase_app_check/FirebaseAppCheck.kt:46-52 | under `ProtectSpecificRoutes` no call is verified at the pipeline level, so only wrapped routes are protected |
| Strategy.ByPathsIsExactMatch | library/src/commonMain/kotlin/net/freshplatform/ktor_server/firebase_app_check/FirebaseAppCheck.kt:58-63 | membership compares the raw URI exactly: a listed path is protected, and the same path with anything appended (a query string, a trailing slash) is not |
| Strategy.ByPathsDependsOnSetOfPaths | library/src/jvmMain/kotlin/net/freshplatform/ktor_server/firebase_app_check/FirebaseAppCheck.kt:53-58 | only the set of listed paths decides, not their order or repetitions |
| Strategy.VerificationOffVerifiesNothing | src/main/kotlin/net/freshplatform/ktor_server/firebase_app_check/core/FirebaseAppCheck.kt:52-55 | with verification off, no call is verified at the pipeline level, whatever the strategy |
| Verifier.FetchCatchAgreesWithTable | src/main/kotlin/net/freshplatform/ktor_server/firebase_app_check/FirebaseAppCheckTokenVerifierImpl.kt:41-96 | the key-fetch `catch` clauses, tried in order, give for every class the kind an independent per-class table gives |
| Verifier.VerifyCatchAgreesWithTable | src/main/kotlin/net/freshplatform/ktor_server/firebase_app_check/FirebaseAppCheckTokenVerifierImpl.kt:123-163 | the verification `catch` clauses, tried in order, agree with the per-class table for every class |
| Verifier.RethrownAs | src/main/kotlin/net/freshplatform/ktor_server/firebase_app_check/FirebaseAppCheckTokenVerifierImpl.kt:41-45 | a rethrown App Check exception carries the caught exception's message, or "null" when it had none, and the chosen kind |
| Verifier.FetchPublicKey | library/src/jvmMain/kotlin/net/freshplatform/ktor_server/firebase_app_check/FirebaseAppCheckTokenVerifierServiceImpl.kt:39-119 | the fetch succeeds if and only if the URL opens, the token decodes and the provider has the `kid`'s key, and it returns that key; any failure is an App Check exception of the kind the first matching clause gives |
| Verifier.ExpectedAudiences | library/src/jvmMain/kotlin/net/freshplatform/ktor_server/firebase_app_check/FirebaseAppCheckTokenVerifierServiceImpl.kt:132 | the verifier accepts either of exactly two audiences: "projects/" + number first, then "projects/" + id |
| Verifier.ExpectedIssuer | library/src/jvmMain/kotlin/net/freshplatform/ktor_server/firebase_app_check/FirebaseAppCheckTokenVerifierServiceImpl.kt:133 | the issuer demanded is the issuer base URL, then "/", then the project number |
| Verifier.VerifyToken | src/main/kotlin/net/freshplatform/ktor_server/firebase_app_check/FirebaseAppCheckTokenVerifierImpl.kt:100-165 | verification succeeds if and only if the key is an RSA key, the library verifies the token against the expected audiences and issuer, and its `typ` is "JWT"; it then returns the library's token unchanged; any failure is a verify-family exception of the kind the first matching clause gives |
| Verifier.VerifyWithKeyFetch | library/src/jvmMain/kotlin/net/freshplatform/ktor_server/firebase_app_check/FirebaseAppCheckTokenVerifierServiceImpl.kt:18-38 | the one-call verify first fetches with the default configuration, and a fetch failure propagates unchanged; after a successful fetch it succeeds exactly when `VerifyToken` with the fetched key does, returning that token wrapped as `TokenOnly`, and otherwise fails with `VerifyToken`'s exception; every failure is an App Check exception |
| Verifier.FetchNeverReportsNetworkError | src/main/kotlin/net/freshplatform/ktor_server/firebase_app_check/FirebaseAppCheckTokenVerifierImpl.kt:41-50 | because `NetworkException` extends `SigningKeyNotFoundException`, the fetch never reports `NetworkError` and reports a network failure as a missing signing key |
| Verifier.FetchOfUndecodableToken | src/main/kotlin/net/freshplatform/ktor_server/firebase_app_check/FirebaseAppCheckTokenVerifierImpl.kt:38-65 | a token `JWT.decode` rejects is reported by the fetch as the verify-family `TokenIsNotValid`, with the decoder's message |
| Verifier.FetchWithMalformedUrl | src/main/kotlin/net/freshplatform/ktor_server/firebase_app_check/FirebaseAppCheckTokenVerifierImpl.kt:91-95 | a malformed key-set URL ends as the fetch-family `UnknownError`, whatever the token |
| Verifier.TypMismatchIsReportedAsUnknown | library/src/jvmMain/kotlin/net/freshplatform/ktor_server/firebase_app_check/FirebaseAppCheckTokenVerifierServiceImpl.kt:136-184 | a `typ` other than "JWT" ends as the verify-family `UnknownError` with the mismatch message, because the catch-all rewraps it; `HeaderTypeIsNotJwt` is never reported |
| Verifier.NonRsaKeyIsUnknownError | library/src/jvmMain/kotlin/net/freshplatform/ktor_server/firebase_app_check/FirebaseAppCheckTokenVerifierServiceImpl.kt:131 | a key that is not an RSA key fails the cast and ends as the verify-family `UnknownError`; the model does not carry the cast's runtime message, so its rethrown message is the rendering "null" |
| Verifier.ExpiryDependsOnStage | src/main/kotlin/net/freshplatform/ktor_server/firebase_app_check/FirebaseAppCheckTokenVerifierImpl.kt:123-127 | an expired token is `TokenExpired` when the verifier sees it; the fetch ladder has no such clause, so a `TokenExpiredException` reaching it would be filed as `GenericJwtVerificationError` (hypothetical, since `JWT.decode` does not check expiry) |
| Mocks.MockFetchPublicKey | library/src/test/net/freshplatform/ktor_server/firebase_app_check/FirebaseAppCheckTokenVerifierServiceMock.kt:14-36 | the older test double's fetch always succeeds with `PublicKeyMock`: algorithm "RS256", format "JWT", an empty encoding, and not an RSA key |
| Mocks.MockFetchIgnoresInputs | library/src/test/net/freshplatform/ktor_server/firebase_app_check/FirebaseAppCheckTokenVerifierServiceMock.kt:29-36 | the placeholder key is the same whatever token, key-set URL and fetch configuration are given |
| Mocks.DecodeExceptionText | library/src/test/net/freshplatform/ktor_server/firebase_app_check/FirebaseAppCheckTokenVerifierServiceMock.kt:66-71 | `"$e"` of a decode exception is its qualified class name, followed by ": " and the message when there is one |
| Mocks.MockClaimChecks | library/src/jvmTest/kotlin/net/freshplatform/ktor_server/firebase_app_check/FirebaseAppCheckTokenVerifierServiceMock.kt:34-52 | a decoded token passes the claim checks if and only if it has number then id as its first two audiences and the hard-coded issuer, and then it comes back unchanged; every App Check failure is `GenericJwtVerificationError`; every other failure is the `NullPointerException`, `NoSuchElementException` or `IndexOutOfBoundsException` of reading the audience list |
| Mocks.MockCheck | library/src/jvmTest/kotlin/net/freshplatform/ktor_server/firebase_app_check/FirebaseAppCheckTokenVerifierServiceMock.kt:32-58 | the test double accepts if and only if the token decodes and has number then id as its first two audiences and the hard-coded issuer; a decoded token gets the claim checks' result, so their failures and their order (number, id, issuer) carry over; a decode failure becomes `TokenIsNotValid` with "Token is not valid: " and the exception text; other exceptions escape unchanged |
| Mocks.MockVerifyToken | library/src/test/net/freshplatform/ktor_server/firebase_app_check/FirebaseAppCheckTokenVerifierServiceMock.kt:38-72 | the older test double returns the decoded token exactly when the shared checks pass, and otherwise their failure |
| Mocks.MockVerifyWithKeyFetch | library/src/jvmTest/kotlin/net/freshplatform/ktor_server/firebase_app_check/FirebaseAppCheckTokenVerifierServiceMock.kt:25-59 | the multiplatform test double returns the token wrapped exactly when the shared checks pass, and otherwise their failure |
| Mocks.MockIgnoresUrlsAndKey | library/src/jvmTest/kotlin/net/freshplatform/ktor_server/firebase_app_check/FirebaseAppCheckTokenVerifierServiceMock.kt:25-31 | both test doubles give the same result whatever issuer base URL, key or key-set URL they are given |
| Mocks.SingleAudienceEscapesMock | library/src/jvmTest/kotlin/net/freshplatform/ktor_server/firebase_app_check/FirebaseAppCheckTokenVerifierServiceMock.kt:40-53 | a token whose only audience is the project number makes `audience[1]` throw `IndexOutOfBoundsException`, which is not an App Check exception |
| Mocks.MockReportsFirstAudienceFirst | library/src/jvmTest/kotlin/net/freshplatform/ktor_server/firebase_app_check/FirebaseAppCheckTokenVerifierServiceMock.kt:34-39 | a wrong first audience is the failure reported, with its message, before the second audience or the issuer is looked at |
| Mocks.MockReportsSecondAudience | library/src/jvmTest/kotlin/net/freshplatform/ktor_server/firebase_app_check/FirebaseAppCheckTokenVerifierServiceMock.kt:40-45 | with the first audience right, a wrong second audience is the failure reported: `GenericJwtVerificationError` with "The <audience[1]> is not equal to projects/<id>", before the issuer is looked at |
| Mocks.MockReportsIssuer | library/src/jvmTest/kotlin/net/freshplatform/ktor_server/firebase_app_check/FirebaseAppCheckTokenVerifierServiceMock.kt:46-51 | with both audiences right, a wrong or missing issuer is reported: `GenericJwtVerificationError` with "The <issuer> is not equal to projects/<number>", where a missing issuer reads "null" |
| Service.Call | library/src/jvmMain/kotlin/net/freshplatform/ktor_server/firebase_app_check/utils/extensions/ApplicationCallExtensions.kt:41-52 | a two-step service verifies only with a fetched key and passes a fetch failure on unchanged; a one-call service is called once with the key-set URL |
| Service.LegacyService | src/main/kotlin/net/freshplatform/ktor_server/firebase_app_check/FirebaseAppCheck.kt:10-12 | the earliest generation's global verifier is a two-step service |
| Service.JvmTwoStepService | library/src/jvmMain/kotlin/net/freshplatform/ktor_server/firebase_app_check/FirebaseAppCheckTokenVerifierServiceImpl.kt:39-186 | the JVM fetch and verify steps form a two-step service |
| Service.JvmService | library/src/commonMain/kotlin/net/freshplatform/ktor_server/firebase_app_check/FirebaseAppCheck.kt:33-35 | the multiplatform library's default service is a one-call service |
| Service.MockLegacyService | library/src/test/net/freshplatform/ktor_server/firebase_app_check/FirebaseAppCheckTokenVerifierServiceMock.kt:28-73 | the older test double is a two-step service |
| Service.MockService | library/src/jvmTest/kotlin/net/freshplatform/ktor_server/firebase_app_check/FirebaseAppCheckTokenVerifierServiceMock.kt:23-60 | the multiplatform test double is a one-call service |
| Service.SingleCallIsFetchThenVerify | library/src/jvmMain/kotlin/net/freshplatform/ktor_server/firebase_app_check/FirebaseAppCheckTokenVerifierServiceImpl.kt:18-38 | the one-call method equals the fetch step followed by the verify step with the default configuration, for every request |
| Service.ProductionFailuresAreAppCheck | library/src/jvmMain/kotlin/net/freshplatform/ktor_server/firebase_app_check/FirebaseAppCheckTokenVerifierServiceImpl.kt:179-184 | every failure of the three production services is an App Check exception: the catch-alls let nothing else escape |
| Service.MockFailureMayBeForeign | library/src/jvmTest/kotlin/net/freshplatform/ktor_server/firebase_app_check/FirebaseAppCheckTokenVerifierServiceMock.kt:40-58 | both test doubles let an `IndexOutOfBoundsException` escape for a single-audience token |
| Service.MockAudiencesAreTheExpectedOnes | library/src/jvmTest/kotlin/net/freshplatform/ktor_server/firebase_app_check/FirebaseAppCheckTokenVerifierServiceMock.kt:34-45 | a token the test doubles accept starts with exactly the two audiences the production verifier accepts in any order |
| Configuration.DefaultsWithoutArguments | library/src/jvmMain/kotlin/net/freshplatform/ktor_server/firebase_app_check/core/FirebaseAppCheckPluginConfiguration.kt:42-53 | defaults: blank project, no override, header "X-Firebase-AppCheck", the public API base URL and "/v1/jwks" under it, `ProtectSpecificRoutes`, a security check that accepts every token, an after-check that does nothing, the default error builder |
| Configuration.DefaultService | library/src/jvmMain/kotlin/net/freshplatform/ktor_server/firebase_app_check/core/FirebaseAppCheckPluginConfiguration.kt:179 | the default service is a one-call service exactly in the multiplatform generation |
| Configuration.IsShouldVerifyTokenExactly | library/src/jvmMain/kotlin/net/freshplatform/ktor_server/firebase_app_check/core/FirebaseAppCheckPluginConfiguration.kt:188-194 | verification is off if and only if the override is false, or there is no override and development mode is on; a set override decides regardless of environment; a missing environment counts as production |
| Configuration.OnError | library/src/jvmMain/kotlin/net/freshplatform/ktor_server/firebase_app_check/utils/extensions/ApplicationCallExtensions.kt:81-83 | an exception goes to the configured error builder, with the settings and the messages the configuration resolves |
| Configuration.DefaultErrorBuilderAlwaysResponds | library/src/jvmMain/kotlin/net/freshplatform/ktor_server/firebase_app_check/core/FirebaseAppCheckPluginConfiguration.kt:55-173 | the default error builder responds to every exception |
| Configuration.AssignChangesOnlyItsField | library/src/jvmMain/kotlin/net/freshplatform/ktor_server/firebase_app_check/core/FirebaseAppCheckPluginConfiguration.kt:42-180 | an assignment in the configure block changes its own field and no other |
| Configuration.AssignAllKeepsUnwritten | library/src/jvmMain/kotlin/net/freshplatform/ktor_server/firebase_app_check/FirebaseAppCheck.kt:30-31 | a field no statement of the configure block assigns keeps its default through the whole block |
| Configuration.LastAssignmentWins | library/src/jvmMain/kotlin/net/freshplatform/ktor_server/firebase_app_check/FirebaseAppCheck.kt:30-31 | the last assignment to a field decides its value |
| Configuration.JwtSetUrlFixedAtConstruction | library/src/jvmMain/kotlin/net/freshplatform/ktor_server/firebase_app_check/core/FirebaseAppCheckPluginConfiguration.kt:47-48 | the default key-set URL is the base URL given at construction plus "/v1/jwks"; changing the base URL later does not change it |
| Configuration.LegacyMessagesFixedAtConstruction | src/main/kotlin/net/freshplatform/ktor_server/firebase_app_check/FirebaseAppCheckPluginConfiguration.kt:177-179 | in the earliest generation the messages stay the defaults for the header name given at construction, unless the block assigns `pluginMessages` |
| Configuration.BuiltMessagesFollowHeaderName | library/src/jvmMain/kotlin/net/freshplatform/ktor_server/firebase_app_check/core/FirebaseAppCheckPluginConfiguration.kt:174-178 | in the library the default message builder stays unless the block replaces it, so messages are built from the header name in force at each request |
| Configuration.PluginConfiguration.constructor | library/src/jvmMain/kotlin/net/freshplatform/ktor_server/firebase_app_check/core/FirebaseAppCheckPluginConfiguration.kt:42-180 | a new configuration object holds the defaults computed from its named arguments |
| Configuration.PluginConfiguration.Set | library/src/jvmMain/kotlin/net/freshplatform/ktor_server/firebase_app_check/core/FirebaseAppCheckPluginConfiguration.kt:43-179 | one assignment statement updates the one field it names |
| Configuration.PluginConfiguration.Apply | library/src/jvmMain/kotlin/net/freshplatform/ktor_server/firebase_app_check/FirebaseAppCheck.kt:30-31 | `.apply(configure)` leaves the object in the state of the block's assignments taken in order |
| Configuration.ReplacementDiscardsEarlierSteps | src/main/kotlin/net/freshplatform/ktor_server/firebase_app_check/core/FirebaseAppCheck.kt:18-20 | replacing the holder's configuration discards everything done before; what follows edits the new object |
| Configuration.EditsAfterReplacement | src/main/kotlin/net/freshplatform/ktor_server/firebase_app_check/FirebaseAppCheck.kt:35-36 | edits through the holder are assignments on its current configuration |
| Configuration.ConfigurationHolder.constructor | src/main/kotlin/net/freshplatform/ktor_server/firebase_app_check/FirebaseAppCheckPluginConfiguration.kt:26-28 | a new holder holds a fresh default configuration |
| Configuration.ConfigurationHolder.Apply | src/main/kotlin/net/freshplatform/ktor_server/firebase_app_check/core/FirebaseAppCheck.kt:43-44 | the holder's block edits its configuration in place or replaces it with a new object; the result is the steps taken in order |
| Interceptor.FetchConfigFor | src/main/kotlin/net/freshplatform/ktor_server/firebase_app_check/FirebaseAppCheck.kt:104-108 | the key fetch is given a fresh default configuration of the generation's shape |
| Interceptor.ServiceEvents | library/src/jvmMain/kotlin/net/freshplatform/ktor_server/firebase_app_check/utils/extensions/ApplicationCallExtensions.kt:41-52 | a two-step service is asked to fetch, and only with a fetched key to verify; a one-call service is called once |
| Interceptor.VerifyAppTokenRequest | library/src/jvmMain/kotlin/net/freshplatform/ktor_server/firebase_app_check/utils/extensions/ApplicationCallExtensions.kt:18-84 | the check's outcome and call order: a missing header gives 401 not-defined; a blank header gives 401 empty, with no service call; then the service, the security check (false gives 401 condition-false) and the after-check; any exception goes to the error builder, and a clean run lets the call through |
| Interceptor.VerdictIsDetermined | library/src/commonMain/kotlin/net/freshplatform/ktor_server/firebase_app_check/utils/ApplicationCallExtensions.kt:25-86 | one configuration and call admit exactly one outcome and call sequence |
| Interceptor.ServiceCalledWithHeaderVerbatim | library/src/jvmMain/kotlin/net/freshplatform/ktor_server/firebase_app_check/utils/extensions/ApplicationCallExtensions.kt:41-52 | the service is called only for a present non-blank header, with the header value verbatim, the configured project, the API base URL as issuer base and the key-set URL |
| Interceptor.ErrorBuilderRunsLast | library/src/jvmMain/kotlin/net/freshplatform/ktor_server/firebase_app_check/utils/extensions/ApplicationCallExtensions.kt:81-83 | the error builder runs at most once, as the last call, and its answer is the outcome |
| Interceptor.CallbacksSeeVerifiedToken | library/src/commonMain/kotlin/net/freshplatform/ktor_server/firebase_app_check/utils/ApplicationCallExtensions.kt:56-64 | the security check sees only the token the service returned; the after-check runs only after the security check accepted it |
| Interceptor.FetchFailureSkipsVerification | src/main/kotlin/net/freshplatform/ktor_server/firebase_app_check/FirebaseAppCheck.kt:104-115 | when the key fetch fails, verification and both callbacks are skipped |
| Interceptor.DefaultBuilderPassesExactlyAccepted | src/main/kotlin/net/freshplatform/ktor_server/firebase_app_check/FirebaseAppCheck.kt:85-125 | with the default error builder a call goes through if and only if the header is present and not blank, the service returns a token, the security check accepts it and the after-check throws nothing |
| Interceptor.ProductionFailuresAnsweredByKind | src/main/kotlin/net/freshplatform/ktor_server/firebase_app_check/FirebaseAppCheck.kt:144-146 | with the production service and the default error builder, a failed service call is an App Check exception and is answered with the default response for its kind |
| Interceptor.BuiltMessagesNameTheHeaderRead | library/src/jvmMain/kotlin/net/freshplatform/ktor_server/firebase_app_check/utils/extensions/ApplicationCallExtensions.kt:21-29 | with the library's default message builder, a missing header is reported under the header name the check reads |
| Interceptor.LegacyMessagesNameTheConstructionHeader | src/main/kotlin/net/freshplatform/ktor_server/firebase_app_check/FirebaseAppCheck.kt:84-92 | in the earliest generation a missing header is reported under the header name the messages were built for, whatever header name is in force when the call is answered |
| Plugin.RequireFailure | library/src/jvmMain/kotlin/net/freshplatform/ktor_server/firebase_app_check/FirebaseAppCheck.kt:32-37 | install's checks fail if and only if the number or the id is blank; a blank number is reported first |
| Plugin.DefaultsAreRejected | library/src/jvmMain/kotlin/net/freshplatform/ktor_server/firebase_app_check/core/FirebaseAppCheckPluginConfiguration.kt:43-44 | a configuration that never sets the project is rejected, with the project-number message |
| Plugin.DevelopmentModeSeen | library/src/commonMain/kotlin/net/freshplatform/ktor_server/firebase_app_check/FirebaseAppCheck.kt:44 | the multiplatform install passes the Boolean `developmentMode`; the others pass the environment's flag, or null without an environment |
| Plugin.FirebaseAppCheckPlugin.constructor | library/src/jvmMain/kotlin/net/freshplatform/ktor_server/firebase_app_check/FirebaseAppCheck.kt:18-20 | the plugin holds the configuration object it is given |
| Plugin.RequireAndRegister | library/src/jvmMain/kotlin/net/freshplatform/ktor_server/firebase_app_check/FirebaseAppCheck.kt:32-65 | a failed check throws `IllegalArgumentException` with its message and registers nothing; otherwise the interceptor is registered if and only if verification is on and the strategy is not `ProtectSpecificRoutes`, and the plugin holds exactly this configuration |
| Plugin.Install | library/src/commonMain/kotlin/net/freshplatform/ktor_server/firebase_app_check/FirebaseAppCheck.kt:29-71 | install of the library generations: a fresh default configuration with the generation's service is configured by the block, then checked and registered as above |
| Plugin.InstallWithHolder | src/main/kotlin/net/freshplatform/ktor_server/firebase_app_check/FirebaseAppCheck.kt:31-71 | install of the two holder-based plugin files (also src/main/.../core/FirebaseAppCheck.kt:39-79): the configuration the holder ends with is checked and registered as above |
| Plugin.InterceptPipelineCall | src/main/kotlin/net/freshplatform/ktor_server/firebase_app_check/FirebaseAppCheck.kt:47-67 | the registered interceptor lets a call through untouched unless its strategy's dispatch selects it; a selected call gets the full check |
| Routing.ProtectRouteWithAppCheck | library/src/jvmMain/kotlin/net/freshplatform/ktor_server/firebase_app_check/utils/extensions/ApplicationCallExtensions.kt:106-120 | a protected child is always created and always built; it checks tokens if and only if `isShouldVerifyToken` holds for the development flag; the strategy is not consulted |
| Routing.InterceptRouteCall | library/src/commonMain/kotlin/net/freshplatform/ktor_server/firebase_app_check/utils/ApplicationCallExtensions.kt:116-120 | a call reaching a route gets the full check exactly when the route has the interceptor, and passes untouched otherwise |

## Left out

- The JWKS key cache, its eviction and the token-bucket rate limiter. They belong to `jwks-rsa`. The model records the settings passed to the provider builder, and the key lookup is an oracle.
- RSA signature checking, base64 and JSON decoding of the token, and the library's audience, issuer and expiry enforcement. They belong to `java-jwt` and appear as oracle outcomes.
- Ktor internals:
  - selector evaluation of `ProtectedRouteSelector` (always transparent);
  - `call.respond`, reduced to an `Outcome` value;
  - `application.plugin(...)` lookup, replaced by passing the plugin;
  - the real pipeline, reduced to a list of registered interceptors.
- `suspend`, `withContext(Dispatchers.IO)`, the test double's `delay`, and the `by lazy` globals. These are scheduling only.
- `DecodedJwt.kt` and the native `expect`/`actual` stub of the service. They carry no decisions.
- The messages of JVM runtime exceptions, such as a failed cast or a null dereference. They are modelled as null, which a rethrow turns into "null".
- The `pluginConfiguration` field of the message set. Only the header name it contributes to the defaults is modelled.
- Exceptions thrown by a custom error builder or message builder. In the source they escape the plugin. The model's callbacks return a value.
- The callbacks see the settings and the resolved messages, not the live configuration object or the `ApplicationCall`.
- Header-name case-insensitivity. It is left to the request's header lookup function.
- The configuration constructor's named arguments: only the header name, base URL and key-set URL are modelled. The other arguments are equivalent to assignments made right after construction.
- Aliasing: the model does not track configuration objects the application keeps after install.
- Routing build blocks are modelled as the list of paths they register.
- The example applications and the test suites, except the two test doubles.
- Service.LegacyService, Service.JvmTwoStepService, Service.JvmService, Service.MockLegacyService, Service.MockService: each contract states only the shape of the service. The behaviour is stated by the contracts of the functions they call (`Verifier.FetchPublicKey`, `Verifier.VerifyToken`, `Verifier.VerifyWithKeyFetch`, the `Mocks` functions) and by `Service.SingleCallIsFetchThenVerify` and `Service.ProductionFailuresAreAppCheck`.
- Verifier.NonRsaKeyIsUnknownError: the program's message is the JVM `ClassCastException` text; the model keeps no runtime messages, so it states "null" instead.
- Mocks.MockClaimChecks, Service.MockFailureMayBeForeign: the runtime messages of `NullPointerException` and `IndexOutOfBoundsException` are not modelled (`None`); only their class is stated.
- Messages.DefaultMessages, Interceptor.FetchConfigFor: the earliest generation's own `FirebaseAppCheckMessages` and `FetchFirebaseAppCheckPublicKeyConfig` (package `net.freshplatform.ktor_server.firebase_app_check`, built at src/main/.../FirebaseAppCheckPluginConfiguration.kt:177-179 and src/main/.../FirebaseAppCheck.kt:107) are not part of this model. That generation is given the library's message texts and the unit-based fetch defaults of library/src/main/.../services/FirebaseAppCheckTokenVerifierService.kt:14-45.
- Plugin.Install: the multiplatform configuration class is not part of this model, so its defaults are taken to be the JVM ones.
