/**
 * `protectRouteWithAppCheck`: wrap a block of routes in a child route that
 * checks App Check tokens at the call phase. The route tree keeps only what
 * the plugin changes: the children, whether a route runs the check, and the
 * routes the block registers on it.
 */
module Routing {
  import opened Kotlin
  import opened ErrorBuilder
  import opened Configuration
  import opened Interceptor
  import opened Plugin

  /** How a route is selected: by a path segment, or the plugin's transparent `ProtectedRouteSelector`. */
  datatype RouteSelector = PathSegmentSelector(segment: string) | ProtectedRouteSelector

  /** A node of the routing tree. */
  class Route {
    const selector: RouteSelector
    var children: seq<Route>
    /** Whether the route has the call-phase interceptor that runs `verifyAppTokenRequest`. */
    var interceptsWithAppCheck: bool
    /** The routes a build block registered on this node, as their paths. */
    var handlers: seq<string>

    constructor (selector: RouteSelector)
      ensures this.selector == selector
      ensures children == [] && !interceptsWithAppCheck && handlers == []
    {
      this.selector := selector;
      children := [];
      interceptsWithAppCheck := false;
      handlers := [];
    }

    /** `createChild(selector)`: a new, empty child appended to this node. */
    method CreateChild(selector: RouteSelector) returns (child: Route)
      modifies this
      ensures fresh(child)
      ensures children == old(children) + [child]
      ensures child.selector == selector && child.children == [] && !child.interceptsWithAppCheck && child.handlers == []
      ensures interceptsWithAppCheck == old(interceptsWithAppCheck) && handlers == old(handlers)
    {
      child := new Route(selector);
      children := children + [child];
    }

    /** `intercept(ApplicationCallPipeline.Call) { call.verifyAppTokenRequest() }`. */
    method InterceptWithAppCheck()
      modifies this
      ensures interceptsWithAppCheck
      ensures children == old(children) && handlers == old(handlers)
    {
      interceptsWithAppCheck := true;
    }

    /** Runs a build block that registers the routes `paths` on this node. */
    method Build(paths: seq<string>)
      modifies this
      ensures handlers == old(handlers) + paths
      ensures children == old(children) && interceptsWithAppCheck == old(interceptsWithAppCheck)
    {
      handlers := handlers + paths;
    }
  }

  /**
   * `Route.protectRouteWithAppCheck(build)`: a protected child is always
   * created and always built; it checks tokens exactly when
   * `isShouldVerifyToken` holds for the development flag the generation
   * reads. The securing strategy is not consulted.
   */
  method ProtectRouteWithAppCheck(route: Route, plugin: FirebaseAppCheckPlugin, developmentMode: Option<bool>, build: seq<string>)
    returns (protectedRoute: Route)
    modifies route
    ensures fresh(protectedRoute)
    ensures route.children == old(route.children) + [protectedRoute]
    ensures route.interceptsWithAppCheck == old(route.interceptsWithAppCheck) && route.handlers == old(route.handlers)
    ensures protectedRoute.selector == ProtectedRouteSelector && protectedRoute.children == []
    ensures protectedRoute.interceptsWithAppCheck == IsShouldVerifyToken(plugin.config.Snapshot(), developmentMode)
    ensures protectedRoute.handlers == build
  {
    var configuration := plugin.config;
    protectedRoute := route.CreateChild(ProtectedRouteSelector);
    var isShouldVerifyToken := IsShouldVerifyToken(configuration.Snapshot(), developmentMode);
    if isShouldVerifyToken {
      protectedRoute.InterceptWithAppCheck();
    }
    protectedRoute.Build(build);
  }

  /** A call reaching a route: only a route with the interceptor checks the token. */
  method InterceptRouteCall(route: Route, plugin: FirebaseAppCheckPlugin, request: Request)
    returns (outcome: Outcome, ghost trace: seq<Event>)
    ensures !route.interceptsWithAppCheck ==> outcome == Pass && trace == []
    ensures route.interceptsWithAppCheck ==> AppTokenVerdict(plugin.config.Snapshot(), request, outcome, trace)
  {
    if route.interceptsWithAppCheck {
      outcome, trace := VerifyAppTokenRequest(plugin.config, request);
    } else {
      outcome, trace := Pass, [];
    }
  }
}
