/**
 * `FirebaseAppCheckPlugin.install`: build and configure the configuration
 * object, require a project number and a project id, and register the
 * pipeline interceptor when the strategy protects at the pipeline level.
 * Also the interceptor itself, run on each call.
 */
module Plugin {
  import opened Kotlin
  import opened Exceptions
  import opened Jwt
  import opened Strategy
  import opened ErrorBuilder
  import opened Service
  import opened Configuration
  import opened Interceptor

  const ProjectNumberBlankMessage := "The firebase project number should not be blank."
  const ProjectIdBlankMessage := "The firebase project id should not be blank."

  /**
   * The two `require` calls of install, in order: the message of the first
   * one that fails, if any.
   */
  function RequireFailure(s: Settings): (r: Option<string>)
    ensures r.None? <==> !IsBlank(s.firebaseProjectNumber) && !IsBlank(s.firebaseProjectId)
    ensures IsBlank(s.firebaseProjectNumber) ==> r == Some(ProjectNumberBlankMessage)
    ensures !IsBlank(s.firebaseProjectNumber) && IsBlank(s.firebaseProjectId) ==> r == Some(ProjectIdBlankMessage)
  {
    if IsBlank(s.firebaseProjectNumber) then Some(ProjectNumberBlankMessage)
    else if IsBlank(s.firebaseProjectId) then Some(ProjectIdBlankMessage)
    else None
  }

  /** A configuration that sets neither project field cannot be installed; the number is reported. */
  lemma DefaultsAreRejected(generation: Generation, args: Arguments, service: TokenVerifierService)
    ensures RequireFailure(Construct(generation, args, service).settings) == Some(ProjectNumberBlankMessage)
  {
    assert IsBlank(Construct(generation, args, service).settings.firebaseProjectNumber);
  }

  /** The pipeline interceptor install registers; it captures the strategy in force at install. */
  datatype PipelineInterceptor = AppCheckInterceptor(secureStrategy: SecureStrategy)

  /**
   * The application call pipeline: the interceptors registered on it, and
   * what it knows of development mode. The earlier generations read
   * `environment?.developmentMode`, `None` standing for a missing
   * environment; the multiplatform library reads `developmentMode`.
   */
  class Pipeline {
    const environmentDevelopmentMode: Option<bool>
    const developmentMode: bool
    var interceptors: seq<PipelineInterceptor>

    constructor (environmentDevelopmentMode: Option<bool>, developmentMode: bool)
      ensures this.environmentDevelopmentMode == environmentDevelopmentMode
      ensures this.developmentMode == developmentMode
      ensures interceptors == []
    {
      this.environmentDevelopmentMode := environmentDevelopmentMode;
      this.developmentMode := developmentMode;
      interceptors := [];
    }

    /** `pipeline.intercept(ApplicationCallPipeline.Call) { ... }`. */
    method Intercept(interceptor: PipelineInterceptor)
      modifies this
      ensures interceptors == old(interceptors) + [interceptor]
    {
      interceptors := interceptors + [interceptor];
    }
  }

  /** The development flag a generation's install passes to `isShouldVerifyToken`. */
  function DevelopmentModeSeen(generation: Generation, environmentDevelopmentMode: Option<bool>, developmentMode: bool): (d: Option<bool>)
    ensures generation == Multiplatform ==> d == Some(developmentMode)
    ensures generation != Multiplatform ==> d == environmentDevelopmentMode
  {
    if generation == Multiplatform then Some(developmentMode) else environmentDevelopmentMode
  }

  /** The installed plugin; it holds the configuration object. */
  class FirebaseAppCheckPlugin {
    const config: PluginConfiguration

    constructor (config: PluginConfiguration)
      ensures this.config == config
    {
      this.config := config;
    }
  }

  /** Whether install registers an interceptor for configuration `c` on a pipeline with these flags. */
  function RegistersFor(c: Config, environmentDevelopmentMode: Option<bool>, developmentMode: bool): bool {
    RegistersPipelineInterceptor(
      IsShouldVerifyToken(c, DevelopmentModeSeen(c.generation, environmentDevelopmentMode, developmentMode)),
      c.settings.secureStrategy)
  }

  /**
   * What install does once the configuration object is configured: the two
   * `require` checks, throwing `IllegalArgumentException`; the interceptor
   * when it is needed; the plugin wrapping the configuration.
   */
  method RequireAndRegister(pipeline: Pipeline, configuration: PluginConfiguration) returns (r: Result<FirebaseAppCheckPlugin, Thrown>)
    modifies pipeline
    ensures var c := configuration.Snapshot();
      && (RequireFailure(c.settings).Some? ==>
            r == Failure(Foreign(IllegalArgumentException, RequireFailure(c.settings)))
            && pipeline.interceptors == old(pipeline.interceptors))
      && (RequireFailure(c.settings).None? ==>
            r.Success? && fresh(r.value) && r.value.config == configuration
            && pipeline.interceptors == old(pipeline.interceptors)
                 + (if RegistersFor(c, pipeline.environmentDevelopmentMode, pipeline.developmentMode)
                    then [AppCheckInterceptor(c.settings.secureStrategy)] else []))
  {
    var c := configuration.Snapshot();
    var failure := RequireFailure(c.settings);
    if failure.Some? {
      return Failure(Foreign(IllegalArgumentException, failure));
    }
    var isShouldVerifyToken := IsShouldVerifyToken(c, DevelopmentModeSeen(c.generation, pipeline.environmentDevelopmentMode, pipeline.developmentMode));
    var secureStrategy := c.settings.secureStrategy;
    if isShouldVerifyToken && !secureStrategy.ProtectSpecificRoutes? {
      pipeline.Intercept(AppCheckInterceptor(secureStrategy));
    }
    var plugin := new FirebaseAppCheckPlugin(configuration);
    return Success(plugin);
  }

  /**
   * Install of the library generations: a new configuration object with the
   * generation's service, configured by the block, then checked and registered.
   */
  method Install(pipeline: Pipeline, generation: Generation, lib: JwtLibrary, block: seq<Assignment>)
    returns (r: Result<FirebaseAppCheckPlugin, Thrown>)
    requires generation != Legacy
    requires forall i :: 0 <= i < |block| ==> Allows(generation, block[i])
    modifies pipeline
    ensures var c := AssignAll(Construct(generation, NoArguments, DefaultService(generation, lib)), block);
      && (RequireFailure(c.settings).Some? ==>
            r == Failure(Foreign(IllegalArgumentException, RequireFailure(c.settings)))
            && pipeline.interceptors == old(pipeline.interceptors))
      && (RequireFailure(c.settings).None? ==>
            r.Success? && fresh(r.value) && fresh(r.value.config) && r.value.config.Snapshot() == c
            && pipeline.interceptors == old(pipeline.interceptors)
                 + (if RegistersFor(c, pipeline.environmentDevelopmentMode, pipeline.developmentMode)
                    then [AppCheckInterceptor(c.settings.secureStrategy)] else []))
  {
    var configuration := new PluginConfiguration(generation, NoArguments, DefaultService(generation, lib));
    configuration.Apply(block);
    r := RequireAndRegister(pipeline, configuration);
  }

  /**
   * Install of the earliest source set's two plugin files: a holder with a
   * default configuration, its block, then the checks on the configuration
   * the holder ends with.
   */
  method InstallWithHolder(pipeline: Pipeline, generation: Generation, lib: JwtLibrary, steps: seq<HolderStep>)
    returns (r: Result<FirebaseAppCheckPlugin, Thrown>)
    requires generation != Multiplatform
    requires forall i :: 0 <= i < |steps| ==> steps[i].EditConfiguration? ==> Allows(generation, steps[i].assignment)
    modifies pipeline
    ensures var service := DefaultService(generation, lib);
      var c := HolderRunAll(service, Construct(generation, NoArguments, service), steps);
      && (RequireFailure(c.settings).Some? ==>
            r == Failure(Foreign(IllegalArgumentException, RequireFailure(c.settings)))
            && pipeline.interceptors == old(pipeline.interceptors))
      && (RequireFailure(c.settings).None? ==>
            r.Success? && fresh(r.value) && fresh(r.value.config) && r.value.config.Snapshot() == c
            && pipeline.interceptors == old(pipeline.interceptors)
                 + (if RegistersFor(c, pipeline.environmentDevelopmentMode, pipeline.developmentMode)
                    then [AppCheckInterceptor(c.settings.secureStrategy)] else []))
  {
    var holder := new ConfigurationHolder(generation, DefaultService(generation, lib));
    holder.Apply(steps);
    r := RequireAndRegister(pipeline, holder.configuration);
  }

  /**
   * The registered interceptor on one call: the captured strategy's dispatch,
   * then `verifyAppTokenRequest` with the plugin's configuration.
   */
  method InterceptPipelineCall(plugin: FirebaseAppCheckPlugin, interceptor: PipelineInterceptor, request: Request)
    returns (outcome: Outcome, ghost trace: seq<Event>)
    ensures !PipelineVerifies(interceptor.secureStrategy, request.uri) ==> outcome == Pass && trace == []
    ensures PipelineVerifies(interceptor.secureStrategy, request.uri) ==>
      AppTokenVerdict(plugin.config.Snapshot(), request, outcome, trace)
  {
    match interceptor.secureStrategy {
      case ProtectSpecificRoutes =>
        return Pass, [];
      case ProtectAll =>
      case ProtectRoutesByPaths(routesPaths) =>
        if request.uri !in routesPaths {
          return Pass, [];
        }
    }
    outcome, trace := VerifyAppTokenRequest(plugin.config, request);
  }
}
