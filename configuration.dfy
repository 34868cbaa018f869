/**
 * The plugin configuration: an object with one mutable field per setting,
 * built with its defaults and then changed by the application's configure
 * block, one assignment after another. The three generations differ in
 * where the response messages come from (a field computed once, when the
 * object is built, or a builder run on each request) and in whether the
 * token verifier service is a setting.
 */
module Configuration {
  import opened Kotlin
  import opened Exceptions
  import opened FetchConfig
  import opened Jwt
  import opened Strategy
  import opened Messages
  import opened ErrorBuilder
  import opened Service

  /**
   * `Legacy`: the plugin under `src/main`. `Jvm`: the JVM source set of the
   * library. `Multiplatform`: its common source set.
   */
  datatype Generation = Legacy | Jvm | Multiplatform

  const DefaultHeaderName := "X-Firebase-AppCheck"
  const DefaultApiBaseUrl := "https://firebaseappcheck.googleapis.com"
  const JwksPath := "/v1/jwks"

  /**
   * The plain settings. `isShouldVerifyToken` is the override the earliest
   * generation calls `overrideIsShouldVerifyToken`; the key-set URL is the
   * one the multiplatform interceptor reads as `firebaseAppCheckPublicKeyUrl`.
   */
  datatype Settings = Settings(
    firebaseProjectId: string,
    firebaseProjectNumber: string,
    isShouldVerifyToken: Option<bool>,
    firebaseAppCheckHeaderName: string,
    firebaseAppCheckApiBaseUrl: string,
    firebaseAppCheckPublicJwtSetUrl: string,
    secureStrategy: SecureStrategy)

  /**
   * Where the response messages come from. The earliest generation has a
   * `pluginMessages` field: initially the default messages for the header
   * name the object was built with, or a message set assigned to it. The
   * library has a `pluginMessagesBuilder` run on the configuration at each
   * request: the default one, which builds the default messages for the
   * current header name, or one assigned to it.
   */
  datatype MessageSource =
    | DefaultPluginMessages(builtForHeaderName: string)
    | PluginMessages(messages: FirebaseAppCheckMessages)
    | DefaultPluginMessagesBuilder
    | PluginMessagesBuilder(build: Settings -> FirebaseAppCheckMessages)

  /**
   * The `errorBuilder` setting: the default `when` table, or an application
   * callback that may respond or leave the call alone. It sees the settings
   * and the messages the configuration resolves.
   */
  datatype ErrorHandler =
    | DefaultErrorBuilder
    | CustomErrorBuilder(build: (Thrown, Settings, FirebaseAppCheckMessages) -> Outcome)

  /** The state of a configuration object. */
  datatype Config = Config(
    generation: Generation,
    settings: Settings,
    additionalSecurityCheck: VerifiedToken -> Result<bool, Thrown>,
    afterSecurityCheck: VerifiedToken -> Option<Thrown>,
    errorBuilder: ErrorHandler,
    messageSource: MessageSource,
    serviceImpl: TokenVerifierService)

  /**
   * The named constructor arguments whose values other defaults are computed
   * from: the header name (read by the earliest generation's messages) and
   * the API base URL (read by the key-set URL default).
   */
  datatype Arguments = Arguments(
    firebaseAppCheckHeaderName: Option<string>,
    firebaseAppCheckApiBaseUrl: Option<string>,
    firebaseAppCheckPublicJwtSetUrl: Option<string>)

  /** `FirebaseAppCheckPluginConfiguration()` with no arguments. */
  const NoArguments := Arguments(None, None, None)

  /**
   * A configuration built with `args`: blank project, no override,
   * `ProtectSpecificRoutes`, a security check that accepts everything, an
   * after-check that does nothing, the default error builder, and the
   * key-set URL under the base URL the object was built with.
   */
  function Construct(generation: Generation, args: Arguments, service: TokenVerifierService): Config
  {
    var header := if args.firebaseAppCheckHeaderName.Some? then args.firebaseAppCheckHeaderName.value else DefaultHeaderName;
    var base := if args.firebaseAppCheckApiBaseUrl.Some? then args.firebaseAppCheckApiBaseUrl.value else DefaultApiBaseUrl;
    var jwks := if args.firebaseAppCheckPublicJwtSetUrl.Some? then args.firebaseAppCheckPublicJwtSetUrl.value else base + JwksPath;
    Config(
      generation,
      Settings("", "", None, header, base, jwks, ProtectSpecificRoutes),
      _ => Success(true),
      _ => None,
      DefaultErrorBuilder,
      if generation == Legacy then DefaultPluginMessages(header) else DefaultPluginMessagesBuilder,
      service)
  }

  /**
   * The defaults of an object built without arguments: the header
   * `X-Firebase-AppCheck`, the public API base URL and the key set under it,
   * and a security check that accepts every token.
   */
  lemma DefaultsWithoutArguments(generation: Generation, service: TokenVerifierService, v: VerifiedToken)
    ensures var c := Construct(generation, NoArguments, service);
      && c.settings == Settings("", "", None, DefaultHeaderName, DefaultApiBaseUrl, DefaultApiBaseUrl + JwksPath, ProtectSpecificRoutes)
      && c.additionalSecurityCheck(v) == Success(true) && c.afterSecurityCheck(v) == None
      && c.errorBuilder.DefaultErrorBuilder? && c.serviceImpl == service
  {
  }

  /** The service a generation uses unless configured otherwise. */
  function DefaultService(generation: Generation, lib: JwtLibrary): (s: TokenVerifierService)
    ensures generation == Multiplatform <==> s.SingleCall?
  {
    match generation
    case Legacy => LegacyService(lib)
    case Jvm => JvmTwoStepService(lib)
    case Multiplatform => JvmService(lib)
  }

  /** The messages a request is answered with. */
  function MessagesOf(c: Config): FirebaseAppCheckMessages {
    match c.messageSource
    case DefaultPluginMessages(headerName) => DefaultMessages(headerName)
    case PluginMessages(m) => m
    case DefaultPluginMessagesBuilder => DefaultMessages(c.settings.firebaseAppCheckHeaderName)
    case PluginMessagesBuilder(build) => build(c.settings)
  }

  /**
   * `isShouldVerifyToken`: the override when there is one, otherwise verify
   * unless the environment is in development mode. A missing environment
   * (`None`) counts as production.
   */
  function IsShouldVerifyToken(c: Config, developmentMode: Option<bool>): bool {
    match c.settings.isShouldVerifyToken
    case Some(b) => b
    case None => !(developmentMode.Some? && developmentMode.value)
  }

  /** Verification is off exactly when the override says so, or there is none and the server is in development mode. */
  lemma IsShouldVerifyTokenExactly(c: Config, developmentMode: Option<bool>)
    ensures !IsShouldVerifyToken(c, developmentMode) <==>
      c.settings.isShouldVerifyToken == Some(false) ||
      (c.settings.isShouldVerifyToken.None? && developmentMode == Some(true))
    ensures c.settings.isShouldVerifyToken.Some? ==>
      IsShouldVerifyToken(c, Some(true)) == IsShouldVerifyToken(c, Some(false)) == IsShouldVerifyToken(c, None)
  {
  }

  /** The configured error builder run on exception `e`. */
  function OnError(c: Config, e: Thrown): (r: Outcome)
    ensures c.errorBuilder.DefaultErrorBuilder? ==> r == DefaultErrorResponse(e, MessagesOf(c))
    ensures c.errorBuilder.CustomErrorBuilder? ==> r == c.errorBuilder.build(e, c.settings, MessagesOf(c))
  {
    match c.errorBuilder
    case DefaultErrorBuilder => DefaultErrorResponse(e, MessagesOf(c))
    case CustomErrorBuilder(build) => build(e, c.settings, MessagesOf(c))
  }

  /** The default error builder answers every exception; it never lets the call through. */
  lemma DefaultErrorBuilderAlwaysResponds(c: Config, e: Thrown)
    requires c.errorBuilder.DefaultErrorBuilder?
    ensures OnError(c, e).Respond?
  {
  }

  /** One assignment of the configure block. */
  datatype Assignment =
    | SetFirebaseProjectId(projectId: string)
    | SetFirebaseProjectNumber(projectNumber: string)
    | SetIsShouldVerifyToken(shouldVerify: Option<bool>)
    | SetFirebaseAppCheckHeaderName(headerName: string)
    | SetFirebaseAppCheckApiBaseUrl(apiBaseUrl: string)
    | SetFirebaseAppCheckPublicJwtSetUrl(jwtSetUrl: string)
    | SetSecureStrategy(strategy: SecureStrategy)
    | SetAdditionalSecurityCheck(check: VerifiedToken -> Result<bool, Thrown>)
    | SetAfterSecurityCheck(after: VerifiedToken -> Option<Thrown>)
    | SetErrorBuilder(handler: ErrorHandler)
    | SetPluginMessages(messages: FirebaseAppCheckMessages)
    | SetPluginMessagesBuilder(build: Settings -> FirebaseAppCheckMessages)
    | SetServiceImpl(service: TokenVerifierService)

  /**
   * The assignments a generation's configuration class has a field for: the
   * earliest has `pluginMessages` and no service; the library has
   * `pluginMessagesBuilder` and `serviceImpl`.
   */
  predicate Allows(generation: Generation, a: Assignment) {
    if generation == Legacy then !a.SetPluginMessagesBuilder? && !a.SetServiceImpl?
    else !a.SetPluginMessages?
  }

  /** The assignments to a field of `Settings`. */
  predicate IsSettingAssignment(a: Assignment) {
    || a.SetFirebaseProjectId? || a.SetFirebaseProjectNumber? || a.SetIsShouldVerifyToken?
    || a.SetFirebaseAppCheckHeaderName? || a.SetFirebaseAppCheckApiBaseUrl?
    || a.SetFirebaseAppCheckPublicJwtSetUrl? || a.SetSecureStrategy?
  }

  /** The configuration after one assignment. */
  function Assign(c: Config, a: Assignment): Config {
    match a
    case SetFirebaseProjectId(v) => c.(settings := c.settings.(firebaseProjectId := v))
    case SetFirebaseProjectNumber(v) => c.(settings := c.settings.(firebaseProjectNumber := v))
    case SetIsShouldVerifyToken(v) => c.(settings := c.settings.(isShouldVerifyToken := v))
    case SetFirebaseAppCheckHeaderName(v) => c.(settings := c.settings.(firebaseAppCheckHeaderName := v))
    case SetFirebaseAppCheckApiBaseUrl(v) => c.(settings := c.settings.(firebaseAppCheckApiBaseUrl := v))
    case SetFirebaseAppCheckPublicJwtSetUrl(v) => c.(settings := c.settings.(firebaseAppCheckPublicJwtSetUrl := v))
    case SetSecureStrategy(v) => c.(settings := c.settings.(secureStrategy := v))
    case SetAdditionalSecurityCheck(f) => c.(additionalSecurityCheck := f)
    case SetAfterSecurityCheck(f) => c.(afterSecurityCheck := f)
    case SetErrorBuilder(h) => c.(errorBuilder := h)
    case SetPluginMessages(m) => c.(messageSource := PluginMessages(m))
    case SetPluginMessagesBuilder(f) => c.(messageSource := PluginMessagesBuilder(f))
    case SetServiceImpl(s) => c.(serviceImpl := s)
  }

  /** The configuration after a whole configure block, assignments taking effect in order. */
  function AssignAll(c: Config, block: seq<Assignment>): Config
    decreases |block|
  {
    if |block| == 0 then c else Assign(AssignAll(c, block[..|block| - 1]), block[|block| - 1])
  }

  /** The settings of a configuration, one per field of the Kotlin class. */
  datatype Field =
    | ProjectIdField | ProjectNumberField | ShouldVerifyField | HeaderNameField | ApiBaseUrlField
    | JwtSetUrlField | StrategyField | SecurityCheckField | AfterCheckField | ErrorBuilderField
    | MessagesField | ServiceField

  /** The field an assignment writes. */
  function FieldOf(a: Assignment): Field {
    match a
    case SetFirebaseProjectId(_) => ProjectIdField
    case SetFirebaseProjectNumber(_) => ProjectNumberField
    case SetIsShouldVerifyToken(_) => ShouldVerifyField
    case SetFirebaseAppCheckHeaderName(_) => HeaderNameField
    case SetFirebaseAppCheckApiBaseUrl(_) => ApiBaseUrlField
    case SetFirebaseAppCheckPublicJwtSetUrl(_) => JwtSetUrlField
    case SetSecureStrategy(_) => StrategyField
    case SetAdditionalSecurityCheck(_) => SecurityCheckField
    case SetAfterSecurityCheck(_) => AfterCheckField
    case SetErrorBuilder(_) => ErrorBuilderField
    case SetPluginMessages(_) => MessagesField
    case SetPluginMessagesBuilder(_) => MessagesField
    case SetServiceImpl(_) => ServiceField
  }

  /** Two configurations hold the same value in field `f`. */
  ghost predicate Agree(c: Config, d: Config, f: Field) {
    match f
    case ProjectIdField => c.settings.firebaseProjectId == d.settings.firebaseProjectId
    case ProjectNumberField => c.settings.firebaseProjectNumber == d.settings.firebaseProjectNumber
    case ShouldVerifyField => c.settings.isShouldVerifyToken == d.settings.isShouldVerifyToken
    case HeaderNameField => c.settings.firebaseAppCheckHeaderName == d.settings.firebaseAppCheckHeaderName
    case ApiBaseUrlField => c.settings.firebaseAppCheckApiBaseUrl == d.settings.firebaseAppCheckApiBaseUrl
    case JwtSetUrlField => c.settings.firebaseAppCheckPublicJwtSetUrl == d.settings.firebaseAppCheckPublicJwtSetUrl
    case StrategyField => c.settings.secureStrategy == d.settings.secureStrategy
    case SecurityCheckField => c.additionalSecurityCheck == d.additionalSecurityCheck
    case AfterCheckField => c.afterSecurityCheck == d.afterSecurityCheck
    case ErrorBuilderField => c.errorBuilder == d.errorBuilder
    case MessagesField => c.messageSource == d.messageSource
    case ServiceField => c.serviceImpl == d.serviceImpl
  }

  /** An assignment changes its own field and no other, and never the generation. */
  lemma AssignChangesOnlyItsField(c: Config, a: Assignment, f: Field)
    ensures f != FieldOf(a) ==> Agree(Assign(c, a), c, f)
    ensures Assign(c, a).generation == c.generation
  {
  }

  /**
   * A field no assignment of the block writes keeps its value through the
   * whole block: settings nobody sets stay at the values the object was
   * built with.
   */
  lemma {:induction false} AssignAllKeepsUnwritten(c: Config, block: seq<Assignment>, f: Field)
    requires forall i :: 0 <= i < |block| ==> FieldOf(block[i]) != f
    ensures Agree(AssignAll(c, block), c, f)
    ensures AssignAll(c, block).generation == c.generation
    decreases |block|
  {
    if |block| > 0 {
      var prefix := block[..|block| - 1];
      AssignAllKeepsUnwritten(c, prefix, f);
      AssignChangesOnlyItsField(AssignAll(c, prefix), block[|block| - 1], f);
    }
  }

  /** The last assignment to a field wins. */
  lemma LastAssignmentWins(c: Config, block: seq<Assignment>, a: Assignment)
    ensures Agree(AssignAll(c, block + [a]), Assign(c, a), FieldOf(a))
  {
    assert (block + [a])[..|block + [a]| - 1] == block;
  }

  /**
   * The key-set URL default is computed from the base URL when the object
   * is built: a block that changes the base URL but not the key-set URL
   * leaves the key-set URL under the base the object was built with.
   */
  lemma JwtSetUrlFixedAtConstruction(generation: Generation, args: Arguments, service: TokenVerifierService, block: seq<Assignment>)
    requires args.firebaseAppCheckPublicJwtSetUrl.None?
    requires forall i :: 0 <= i < |block| ==> FieldOf(block[i]) != JwtSetUrlField
    ensures var c := Construct(generation, args, service);
      AssignAll(c, block).settings.firebaseAppCheckPublicJwtSetUrl == c.settings.firebaseAppCheckApiBaseUrl + JwksPath
  {
    AssignAllKeepsUnwritten(Construct(generation, args, service), block, JwtSetUrlField);
  }

  /**
   * In the earliest generation the messages are computed once, when the
   * object is built: unless the block assigns `pluginMessages`, they stay
   * the defaults for the header the object was built with, whatever header
   * name the block sets.
   */
  lemma LegacyMessagesFixedAtConstruction(args: Arguments, service: TokenVerifierService, block: seq<Assignment>)
    requires forall i :: 0 <= i < |block| ==> FieldOf(block[i]) != MessagesField
    ensures var c := Construct(Legacy, args, service);
      AssignAll(c, block).messageSource == DefaultPluginMessages(c.settings.firebaseAppCheckHeaderName)
  {
    AssignAllKeepsUnwritten(Construct(Legacy, args, service), block, MessagesField);
  }

  /**
   * In the library generations the messages are rebuilt from the current
   * configuration: unless the block replaces the builder, the default
   * builder stays, and `MessagesOf` builds the defaults for the header name
   * in force when a request is answered.
   */
  lemma BuiltMessagesFollowHeaderName(generation: Generation, args: Arguments, service: TokenVerifierService, block: seq<Assignment>)
    requires generation != Legacy
    requires forall i :: 0 <= i < |block| ==> FieldOf(block[i]) != MessagesField
    ensures AssignAll(Construct(generation, args, service), block).messageSource == DefaultPluginMessagesBuilder
  {
    AssignAllKeepsUnwritten(Construct(generation, args, service), block, MessagesField);
  }

  /**
   * The plugin configuration object. Fields are assigned by the configure
   * block; `Snapshot` is the state the rest of the model reads.
   */
  class PluginConfiguration {
    const generation: Generation
    var firebaseProjectId: string
    var firebaseProjectNumber: string
    var isShouldVerifyToken: Option<bool>
    var firebaseAppCheckHeaderName: string
    var firebaseAppCheckApiBaseUrl: string
    var firebaseAppCheckPublicJwtSetUrl: string
    var secureStrategy: SecureStrategy
    var additionalSecurityCheck: VerifiedToken -> Result<bool, Thrown>
    var afterSecurityCheck: VerifiedToken -> Option<Thrown>
    var errorBuilder: ErrorHandler
    var messageSource: MessageSource
    var serviceImpl: TokenVerifierService

    /** The current state of the object. */
    function Snapshot(): Config
      reads this
    {
      Config(generation,
             Settings(firebaseProjectId, firebaseProjectNumber, isShouldVerifyToken, firebaseAppCheckHeaderName,
                      firebaseAppCheckApiBaseUrl, firebaseAppCheckPublicJwtSetUrl, secureStrategy),
             additionalSecurityCheck, afterSecurityCheck, errorBuilder, messageSource, serviceImpl)
    }

    /** `FirebaseAppCheckPluginConfiguration(...)` with the given named arguments and service. */
    constructor (generation: Generation, args: Arguments, service: TokenVerifierService)
      ensures Snapshot() == Construct(generation, args, service)
    {
      var c := Construct(generation, args, service);
      this.generation := generation;
      firebaseProjectId := c.settings.firebaseProjectId;
      firebaseProjectNumber := c.settings.firebaseProjectNumber;
      isShouldVerifyToken := c.settings.isShouldVerifyToken;
      firebaseAppCheckHeaderName := c.settings.firebaseAppCheckHeaderName;
      firebaseAppCheckApiBaseUrl := c.settings.firebaseAppCheckApiBaseUrl;
      firebaseAppCheckPublicJwtSetUrl := c.settings.firebaseAppCheckPublicJwtSetUrl;
      secureStrategy := c.settings.secureStrategy;
      additionalSecurityCheck := c.additionalSecurityCheck;
      afterSecurityCheck := c.afterSecurityCheck;
      errorBuilder := c.errorBuilder;
      messageSource := c.messageSource;
      serviceImpl := c.serviceImpl;
    }

    /** One assignment statement of the configure block. */
    method Set(a: Assignment)
      requires Allows(generation, a)
      modifies this
      ensures Snapshot() == Assign(old(Snapshot()), a)
    {
      if IsSettingAssignment(a) {
        SetSetting(a);
      } else {
        SetHook(a);
      }
    }

    /** An assignment to one of the plain settings. */
    method SetSetting(a: Assignment)
      requires IsSettingAssignment(a)
      modifies this
      ensures Snapshot() == Assign(old(Snapshot()), a)
    {
      match a
      case SetFirebaseProjectId(v) => firebaseProjectId := v;
      case SetFirebaseProjectNumber(v) => firebaseProjectNumber := v;
      case SetIsShouldVerifyToken(v) => isShouldVerifyToken := v;
      case SetFirebaseAppCheckHeaderName(v) => firebaseAppCheckHeaderName := v;
      case SetFirebaseAppCheckApiBaseUrl(v) => firebaseAppCheckApiBaseUrl := v;
      case SetFirebaseAppCheckPublicJwtSetUrl(v) => firebaseAppCheckPublicJwtSetUrl := v;
      case SetSecureStrategy(v) => secureStrategy := v;
    }

    /** An assignment to a callback, the messages or the service. */
    method SetHook(a: Assignment)
      requires !IsSettingAssignment(a)
      modifies this
      ensures Snapshot() == Assign(old(Snapshot()), a)
    {
      match a
      case SetAdditionalSecurityCheck(f) => additionalSecurityCheck := f;
      case SetAfterSecurityCheck(f) => afterSecurityCheck := f;
      case SetErrorBuilder(h) => errorBuilder := h;
      case SetPluginMessages(m) => messageSource := PluginMessages(m);
      case SetPluginMessagesBuilder(f) => messageSource := PluginMessagesBuilder(f);
      case SetServiceImpl(s) => serviceImpl := s;
    }

    /** `.apply(configure)`: the block's assignments, in order. */
    method Apply(block: seq<Assignment>)
      requires forall i :: 0 <= i < |block| ==> Allows(generation, block[i])
      modifies this
      ensures Snapshot() == AssignAll(old(Snapshot()), block)
    {
      var i := 0;
      while i < |block|
        invariant 0 <= i <= |block|
        invariant Snapshot() == AssignAll(old(Snapshot()), block[..i])
      {
        assert block[..i + 1][..i] == block[..i];
        Set(block[i]);
        i := i + 1;
      }
      assert block[..|block|] == block;
    }
  }

  /** A statement of the earliest generation's configure block, run on the holder. */
  datatype HolderStep =
    | ReplaceConfiguration(args: Arguments)
    | EditConfiguration(assignment: Assignment)

  /**
   * The holder's configuration after its block. A replacement is a new
   * object of the same class, built with the named arguments given and the
   * service a new object gets.
   */
  function HolderRunAll(service: TokenVerifierService, c: Config, steps: seq<HolderStep>): Config
    decreases |steps|
  {
    if |steps| == 0 then c
    else
      var before := HolderRunAll(service, c, steps[..|steps| - 1]);
      match steps[|steps| - 1]
      case ReplaceConfiguration(args) => Construct(c.generation, args, service)
      case EditConfiguration(a) => Assign(before, a)
  }

  /**
   * A block that replaces the configuration restarts from the new object:
   * nothing assigned before the last replacement survives it.
   */
  lemma ReplacementDiscardsEarlierSteps(service: TokenVerifierService, c: Config, steps: seq<HolderStep>, args: Arguments, later: seq<Assignment>)
    ensures HolderRunAll(service, c, steps + [ReplaceConfiguration(args)] + Edits(later))
         == AssignAll(Construct(c.generation, args, service), later)
  {
    EditsAfterReplacement(service, c, steps + [ReplaceConfiguration(args)], later);
    assert (steps + [ReplaceConfiguration(args)])[..|steps|] == steps;
  }

  /** The holder steps that assign fields one after another. */
  function Edits(block: seq<Assignment>): (steps: seq<HolderStep>)
    ensures |steps| == |block|
    ensures forall i :: 0 <= i < |block| ==> steps[i] == EditConfiguration(block[i])
  {
    seq(|block|, i requires 0 <= i < |block| => EditConfiguration(block[i]))
  }

  /** Edits run on the holder are assignments on its current configuration. */
  lemma {:induction false} EditsAfterReplacement(service: TokenVerifierService, c: Config, steps: seq<HolderStep>, later: seq<Assignment>)
    ensures HolderRunAll(service, c, steps + Edits(later)) == AssignAll(HolderRunAll(service, c, steps), later)
    decreases |later|
  {
    if |later| > 0 {
      var init := later[..|later| - 1];
      EditsAfterReplacement(service, c, steps, init);
      var all := steps + Edits(later);
      assert all[..|all| - 1] == steps + Edits(init);
      assert all[|all| - 1] == EditConfiguration(later[|later| - 1]);
    } else {
      assert steps + Edits(later) == steps;
    }
  }

  /**
   * `FirebaseAppCheckPluginConfigurationHolder`: its `configuration` may be
   * edited in place or replaced by a new object. Both plugin files of the
   * earliest source set have one: over that source set's configuration
   * class, and over the library's.
   */
  class ConfigurationHolder {
    /** The service every configuration object the holder makes starts with. */
    const service: TokenVerifierService
    var configuration: PluginConfiguration

    /** A holder with a default configuration. */
    constructor (generation: Generation, service: TokenVerifierService)
      ensures this.service == service
      ensures fresh(configuration)
      ensures configuration.Snapshot() == Construct(generation, NoArguments, service)
    {
      this.service := service;
      configuration := new PluginConfiguration(generation, NoArguments, service);
    }

    /** `.apply(configure)` on the holder: each step edits or replaces the configuration. */
    method Apply(steps: seq<HolderStep>)
      requires forall i :: 0 <= i < |steps| ==> steps[i].EditConfiguration? ==> Allows(configuration.generation, steps[i].assignment)
      modifies this, configuration
      ensures configuration == old(configuration) || fresh(configuration)
      ensures configuration.generation == old(configuration.generation)
      ensures configuration.Snapshot() == HolderRunAll(service, old(configuration.Snapshot()), steps)
    {
      ghost var start := configuration.Snapshot();
      var i := 0;
      while i < |steps|
        invariant 0 <= i <= |steps|
        invariant configuration == old(configuration) || fresh(configuration)
        invariant configuration.generation == start.generation
        invariant configuration.Snapshot() == HolderRunAll(service, start, steps[..i])
      {
        assert steps[..i + 1][..i] == steps[..i];
        match steps[i] {
          case ReplaceConfiguration(args) =>
            configuration := new PluginConfiguration(configuration.generation, args, service);
          case EditConfiguration(a) =>
            configuration.Set(a);
        }
        i := i + 1;
      }
      assert steps[..|steps|] == steps;
    }
  }
}
