/**
 * How the plugin decides which calls go through App Check verification at
 * the pipeline level: the three securing strategies and the `when` that the
 * pipeline interceptor runs for each call.
 */
module Strategy {

  /** The securing strategy; `ProtectRoutesByPaths` holds the ordered list of protected URIs. */
  datatype SecureStrategy =
    | ProtectAll
    | ProtectRoutesByPaths(routesPaths: seq<string>)
    | ProtectSpecificRoutes

  /**
   * Install adds a pipeline interceptor only when verification is on and the
   * strategy protects something at the pipeline level; `ProtectSpecificRoutes`
   * leaves protection to the wrapped routes.
   */
  predicate RegistersPipelineInterceptor(shouldVerify: bool, strategy: SecureStrategy) {
    shouldVerify && !strategy.ProtectSpecificRoutes?
  }

  /**
   * The dispatch inside the pipeline interceptor: whether a call with request
   * URI `uri` goes on to token verification or returns untouched.
   */
  predicate PipelineVerifies(strategy: SecureStrategy, uri: string) {
    match strategy
    case ProtectSpecificRoutes => false
    case ProtectAll => true
    case ProtectRoutesByPaths(paths) => uri in paths
  }

  /**
   * Whether a call is verified by the pipeline interceptor at all: the
   * interceptor must be registered, then its dispatch must let the call through.
   */
  predicate VerifiedByPipeline(shouldVerify: bool, strategy: SecureStrategy, uri: string) {
    RegistersPipelineInterceptor(shouldVerify, strategy) && PipelineVerifies(strategy, uri)
  }

  /**
   * The pipeline verifies a call exactly when verification is on and the
   * strategy is `ProtectAll`, or lists the raw URI verbatim.
   */
  lemma VerifiedByPipelineExactly(shouldVerify: bool, strategy: SecureStrategy, uri: string)
    ensures VerifiedByPipeline(shouldVerify, strategy, uri) <==>
      shouldVerify && (strategy.ProtectAll? || (strategy.ProtectRoutesByPaths? && exists i :: 0 <= i < |strategy.routesPaths| && strategy.routesPaths[i] == uri))
  {
  }

  /** The `ProtectSpecificRoutes` branch of the dispatch is never reached with an effect. */
  lemma SpecificRoutesNeverPipelineVerified(shouldVerify: bool, uri: string)
    ensures !VerifiedByPipeline(shouldVerify, ProtectSpecificRoutes, uri)
  {
  }

  /**
   * Membership is an exact comparison of the raw URI: a listed path is
   * protected, but anything appended to it (a query string, a trailing
   * slash) makes it miss.
   */
  lemma ByPathsIsExactMatch(path: string, suffix: string)
    requires |suffix| > 0
    ensures PipelineVerifies(ProtectRoutesByPaths([path]), path)
    ensures !PipelineVerifies(ProtectRoutesByPaths([path]), path + suffix)
  {
    assert path + suffix != path by {
      assert |path + suffix| != |path|;
    }
  }

  /** Only the set of listed paths matters, not their order or repetitions. */
  lemma ByPathsDependsOnSetOfPaths(paths1: seq<string>, paths2: seq<string>, uri: string)
    requires (set p | p in paths1) == (set p | p in paths2)
    ensures PipelineVerifies(ProtectRoutesByPaths(paths1), uri) == PipelineVerifies(ProtectRoutesByPaths(paths2), uri)
  {
    var s1, s2 := set p | p in paths1, set p | p in paths2;
    assert uri in paths1 <==> uri in s1;
    assert uri in paths2 <==> uri in s2;
    assert PipelineVerifies(ProtectRoutesByPaths(paths1), uri) == (uri in paths1);
    assert PipelineVerifies(ProtectRoutesByPaths(paths2), uri) == (uri in paths2);
  }

  /** With verification off, no call is verified at the pipeline level, whatever the strategy. */
  lemma VerificationOffVerifiesNothing(strategy: SecureStrategy, uri: string)
    ensures !VerifiedByPipeline(false, strategy, uri)
  {
  }
}
