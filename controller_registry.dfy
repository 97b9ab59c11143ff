/** The controller registry of the CLI server: the chain of middlewares put
    in front of every route, the path a controller's router is mounted at,
    and the decisions of the license and scope middlewares. Middlewares are
    tags; the Express router, request-argument parsing and the rate limiter
    itself are not part of this model. */
module ControllerRegistry {
  import opened Common

  /** `RateLimit` options of a route. */
  datatype RateLimit = RateLimit(windowMs: Option<int>, limit: Option<int>)

  /** `rateLimit?: boolean | RateLimit` */
  datatype RateLimitSetting = Unset | Flag(on: bool) | Limits(config: RateLimit)

  datatype AccessScope = AccessScope(scope: string, globalOnly: bool)

  /** The middlewares a route can get; `Custom` is a handler of the
      controller or of the route itself, named by its handler. */
  datatype Middleware =
    | RateLimiter(config: RateLimit)
    | Authenticate(allowSkipMFA: bool, allowSkipPreviewAuth: bool)
    | LastActiveAt
    | LicenseCheck(feature: string)
    | ScopeCheck(accessScope: AccessScope)
    | Custom(handler: string)

  /** The options of a route or static router that decide its middlewares. */
  datatype RouteOptions = RouteOptions(
    skipAuth: Option<bool>,
    allowSkipMFA: Option<bool>,
    allowSkipPreviewAuth: Option<bool>,
    rateLimit: RateLimitSetting,
    licenseFeature: Option<string>,
    accessScope: Option<AccessScope>,
    middlewares: Option<seq<string>>)

  /** Truthiness of `route.rateLimit`. */
  predicate RateLimited(s: RateLimitSetting)
  {
    s.Limits? || (s.Flag? && s.on)
  }

  /** `createRateLimitMiddleware`: `true` stands for the default options. */
  function RateLimitConfig(s: RateLimitSetting): RateLimit
  {
    if s.Limits? then s.config else RateLimit(None, None)
  }

  predicate Licensed(route: RouteOptions)
  {
    route.licenseFeature.Some? && route.licenseFeature.value != ""
  }

  /** Where each built-in middleware sits in the chain. */
  function Stage(m: Middleware): nat
  {
    match m
    case RateLimiter(_) => 0
    case Authenticate(_, _) => 1
    case LastActiveAt => 2
    case LicenseCheck(_) => 3
    case ScopeCheck(_) => 4
    case Custom(_) => 5
  }

  predicate StagesAscending(ms: seq<Middleware>)
  {
    forall i, j :: 0 <= i < j < |ms| ==> Stage(ms[i]) < Stage(ms[j])
  }

  /** Rate limiting: only in production and only for a route that asks for it. */
  function RatePart(route: RouteOptions, inProduction: bool): seq<Middleware>
  {
    if inProduction && RateLimited(route.rateLimit) then [RateLimiter(RateLimitConfig(route.rateLimit))] else []
  }

  /** Authentication and last-active tracking, unless the route skips authentication. */
  function AuthPart(route: RouteOptions): seq<Middleware>
  {
    if route.skipAuth != Some(true)
    then [Authenticate(route.allowSkipMFA == Some(true), route.allowSkipPreviewAuth == Some(true)), LastActiveAt]
    else []
  }

  function LicensePart(route: RouteOptions): seq<Middleware>
  {
    if Licensed(route) then [LicenseCheck(route.licenseFeature.value)] else []
  }

  function ScopePart(route: RouteOptions): seq<Middleware>
  {
    if route.accessScope.Some? then [ScopeCheck(route.accessScope.value)] else []
  }

  /** The middlewares the registry itself puts in front of the custom ones. */
  function Guards(route: RouteOptions, inProduction: bool): seq<Middleware>
  {
    RatePart(route, inProduction) + AuthPart(route) + LicensePart(route) + ScopePart(route)
  }

  predicate StagesAtMost(ms: seq<Middleware>, k: nat)
  {
    forall i :: 0 <= i < |ms| ==> Stage(ms[i]) <= k
  }

  predicate StagesAbove(ms: seq<Middleware>, k: nat)
  {
    forall i :: 0 <= i < |ms| ==> Stage(ms[i]) > k
  }

  /** Two ordered chains, the first at stages up to `k` and the second
      above it, make an ordered chain. */
  lemma AppendAscending(xs: seq<Middleware>, ys: seq<Middleware>, k: nat, top: nat)
    requires StagesAscending(xs) && StagesAscending(ys)
    requires k <= top && StagesAtMost(xs, k) && StagesAbove(ys, k) && StagesAtMost(ys, top)
    ensures StagesAscending(xs + ys) && StagesAtMost(xs + ys, top)
  {
    var zs := xs + ys;
    forall i, j | 0 <= i < j < |zs| ensures Stage(zs[i]) < Stage(zs[j]) {
      if j < |xs| {
        assert zs[i] == xs[i] && zs[j] == xs[j];
      } else if i >= |xs| {
        assert zs[i] == ys[i - |xs|] && zs[j] == ys[j - |xs|];
      } else {
        assert zs[i] == xs[i] && zs[j] == ys[j - |xs|];
      }
    }
    forall i | 0 <= i < |zs| ensures Stage(zs[i]) <= top {
      if i >= |xs| {
        assert zs[i] == ys[i - |xs|];
      } else {
        assert zs[i] == xs[i];
      }
    }
  }

  lemma RatePartStages(route: RouteOptions, inProduction: bool)
    ensures StagesAscending(RatePart(route, inProduction)) && StagesAtMost(RatePart(route, inProduction), 0)
  {
  }

  lemma AuthPartStages(route: RouteOptions)
    ensures StagesAscending(AuthPart(route)) && StagesAbove(AuthPart(route), 0) && StagesAtMost(AuthPart(route), 2)
  {
    var a := AuthPart(route);
    if a != [] {
      assert Stage(a[0]) == 1 && Stage(a[1]) == 2;
    }
  }

  lemma LicensePartStages(route: RouteOptions)
    ensures StagesAscending(LicensePart(route)) && StagesAbove(LicensePart(route), 2) && StagesAtMost(LicensePart(route), 3)
  {
  }

  lemma ScopePartStages(route: RouteOptions)
    ensures StagesAscending(ScopePart(route)) && StagesAbove(ScopePart(route), 3) && StagesAtMost(ScopePart(route), 4)
  {
  }

  /** The guards are in stage order: at most one of each kind, and
      authentication directly followed by last-active tracking. */
  lemma GuardsAscending(route: RouteOptions, inProduction: bool)
    ensures StagesAscending(Guards(route, inProduction))
  {
    var r, a, l, sc := RatePart(route, inProduction), AuthPart(route), LicensePart(route), ScopePart(route);
    RatePartStages(route, inProduction);
    AuthPartStages(route);
    LicensePartStages(route);
    ScopePartStages(route);
    AppendAscending(r, a, 0, 2);
    AppendAscending(r + a, l, 2, 3);
    AppendAscending(r + a + l, sc, 3, 4);
  }

  /** Each kind of guard is present exactly when the route asks for it,
      with the options the route gives; no custom middleware is a guard. */
  lemma GuardsPresent(route: RouteOptions, inProduction: bool)
    ensures var gs := Guards(route, inProduction);
      (forall m :: m in gs ==> !m.Custom?) &&
      (RateLimiter(RateLimitConfig(route.rateLimit)) in gs <==> inProduction && RateLimited(route.rateLimit)) &&
      (forall m :: m in gs && m.RateLimiter? ==> m == RateLimiter(RateLimitConfig(route.rateLimit))) &&
      (Authenticate(route.allowSkipMFA == Some(true), route.allowSkipPreviewAuth == Some(true)) in gs <==> route.skipAuth != Some(true)) &&
      (forall m :: m in gs && m.Authenticate? ==> m == Authenticate(route.allowSkipMFA == Some(true), route.allowSkipPreviewAuth == Some(true))) &&
      (LastActiveAt in gs <==> route.skipAuth != Some(true)) &&
      (Licensed(route) ==> LicenseCheck(route.licenseFeature.value) in gs) &&
      (forall m :: m in gs && m.LicenseCheck? ==> Licensed(route) && m == LicenseCheck(route.licenseFeature.value)) &&
      (route.accessScope.Some? ==> ScopeCheck(route.accessScope.value) in gs) &&
      (forall m :: m in gs && m.ScopeCheck? ==> route.accessScope.Some? && m == ScopeCheck(route.accessScope.value))
  {
    GuardsMembers(route, inProduction);
  }

  lemma GuardsMembers(route: RouteOptions, inProduction: bool)
    ensures forall m :: m in Guards(route, inProduction) <==>
      m in RatePart(route, inProduction) || m in AuthPart(route) || m in LicensePart(route) || m in ScopePart(route)
  {
  }

  function Customs(names: seq<string>): (ms: seq<Middleware>)
    ensures |ms| == |names| && forall k :: 0 <= k < |ms| ==> ms[k] == Custom(names[k])
  {
    if names == [] then []
    else
      var n := |names| - 1;
      assert forall k :: 0 <= k < n ==> names[..n][k] == names[k];
      Customs(names[..n]) + [Custom(names[n])]
  }

  /** `buildMiddlewares`: the guards, then the controller's middlewares,
      then the route's own, each group in its original order. */
  method BuildMiddlewares(route: RouteOptions, controllerMiddlewares: seq<string>, inProduction: bool)
    returns (middlewares: seq<Middleware>)
    ensures middlewares == Guards(route, inProduction) + Customs(controllerMiddlewares) +
                           Customs(if route.middlewares.Some? then route.middlewares.value else [])
  {
    middlewares := [];
    if inProduction && RateLimited(route.rateLimit) {
      middlewares := middlewares + [RateLimiter(RateLimitConfig(route.rateLimit))];
    }
    assert middlewares == RatePart(route, inProduction);
    if route.skipAuth != Some(true) {
      middlewares := middlewares + [Authenticate(route.allowSkipMFA == Some(true), route.allowSkipPreviewAuth == Some(true)), LastActiveAt];
    }
    assert middlewares == RatePart(route, inProduction) + AuthPart(route);
    if Licensed(route) {
      middlewares := middlewares + [LicenseCheck(route.licenseFeature.value)];
    }
    assert middlewares == RatePart(route, inProduction) + AuthPart(route) + LicensePart(route);
    if route.accessScope.Some? {
      middlewares := middlewares + [ScopeCheck(route.accessScope.value)];
    }
    assert middlewares == Guards(route, inProduction);
    middlewares := middlewares + Customs(controllerMiddlewares);
    if route.middlewares.Some? {
      middlewares := middlewares + Customs(route.middlewares.value);
    } else {
      assert middlewares + Customs([]) == middlewares;
    }
  }

  // ---------------------------------------------------------------------
  // Mount path of a controller's router

  /** `/\/+/g` replaced by `/`: every run of slashes becomes one slash. */
  function CollapseSlashes(s: string): (r: string)
    ensures |r| <= |s|
    ensures NoDoubleSlash(r)
    ensures s != [] ==> r != [] && r[0] == s[0]
    ensures s != [] ==> r[|r| - 1] == s[|s| - 1]
  {
    if |s| < 2 then s
    else if s[0] == '/' && s[1] == '/' then CollapseSlashes(s[1..])
    else
      var rest := CollapseSlashes(s[1..]);
      assert rest[0] == s[1];
      [s[0]] + rest
  }

  predicate NoDoubleSlash(s: string)
  {
    forall i :: 0 <= i < |s| - 1 ==> !(s[i] == '/' && s[i + 1] == '/')
  }

  /** A path without double slashes is left alone. */
  lemma {:induction false} CollapseKeepsNormal(s: string)
    requires NoDoubleSlash(s)
    ensures CollapseSlashes(s) == s
  {
    if |s| >= 2 {
      assert !(s[0] == '/' && s[1] == '/');
      assert NoDoubleSlash(s[1..]) by {
        forall i | 0 <= i < |s[1..]| - 1 ensures !(s[1..][i] == '/' && s[1..][i + 1] == '/') {
          assert s[1..][i] == s[i + 1] && s[1..][i + 1] == s[i + 2];
        }
      }
      CollapseKeepsNormal(s[1..]);
    }
  }

  /** Collapsing treats a double slash anywhere exactly like a single one,
      so it is the normal form of rewriting `//` to `/`. */
  lemma {:induction false} CollapseRewrite(x: string, y: string)
    ensures CollapseSlashes(x + "//" + y) == CollapseSlashes(x + "/" + y)
    decreases |x|
  {
    if x == [] {
      assert ("" + "//" + y)[1..] == "" + "/" + y;
    } else {
      var a, b := x + "//" + y, x + "/" + y;
      assert a[1..] == x[1..] + "//" + y;
      assert b[1..] == x[1..] + "/" + y;
      CollapseRewrite(x[1..], y);
      if |x| == 1 {
        assert a[1] == '/' && b[1] == '/';
        if x[0] == '/' {
          assert a[1..][1..] == b[1..];
        }
      } else {
        assert a[1] == x[1] && b[1] == x[1];
      }
    }
  }

  /** `.replace(/\/$/, '')`: one trailing slash removed. */
  function DropTrailingSlash(s: string): (r: string)
    ensures s != [] && s[|s| - 1] == '/' ==> r == s[..|s| - 1]
    ensures !(s != [] && s[|s| - 1] == '/') ==> r == s
  {
    if s != [] && s[|s| - 1] == '/' then s[..|s| - 1] else s
  }

  /** The base path before normalisation. */
  function BasePath(registerOnRootPath: bool, basePath: string, restEndpoint: string): string
  {
    if registerOnRootPath then basePath else "/" + restEndpoint + "/" + basePath
  }

  /** The path `app.use` mounts a router at: slashes collapsed, one trailing
      slash dropped, and `/` when nothing is left. */
  function MountPath(path: string): (r: string)
    ensures r != ""
    ensures NoDoubleSlash(r)
    ensures r == "/" || r[|r| - 1] != '/'
    ensures path != [] && path[0] == '/' ==> r[0] == '/'
  {
    var prefix := DropTrailingSlash(CollapseSlashes(path));
    assert NoDoubleSlash(prefix);
    if prefix == "" then "/"
    else
      assert prefix[|prefix| - 1] != '/' by {
        var c := CollapseSlashes(path);
        if c[|c| - 1] == '/' {
          assert |c| >= 2 && prefix == c[..|c| - 1] && c[|c| - 2] != '/';
        }
      }
      prefix
  }

  /** `activateController`'s mount path. */
  function ControllerMountPath(registerOnRootPath: bool, basePath: string, restEndpoint: string): (r: string)
    ensures r != ""
    ensures !registerOnRootPath ==> r[0] == '/'
  {
    assert !registerOnRootPath ==> BasePath(registerOnRootPath, basePath, restEndpoint)[0] == '/';
    MountPath(BasePath(registerOnRootPath, basePath, restEndpoint))
  }

  /** Mounting a mount path again changes nothing. */
  lemma MountPathIdempotent(path: string)
    ensures MountPath(MountPath(path)) == MountPath(path)
  {
    var m := MountPath(path);
    CollapseKeepsNormal(m);
  }

  // ---------------------------------------------------------------------
  // Decisions of the license and scope middlewares

  /** What a middleware does with a request: pass it on, answer it, or throw. */
  datatype Decision =
    | Next
    | Respond(status: int, body: Json)
    | Throw(error: ScopeError)

  datatype ScopeError = Unauthenticated | NotFound(message: string) | Other(message: string)

  const NoLicenseMessage: string := "Plan lacks license for this feature"

  function ErrorBody(message: string): Json
  {
    JObj(map["status" := JStr("error"), "message" := JStr(message)])
  }

  /** `createLicenseMiddleware`: requests pass only when the feature is licensed. */
  function LicenseMiddleware(feature: string, isLicensed: string -> bool): (d: Decision)
    ensures d.Next? <==> isLicensed(feature)
    ensures !isLicensed(feature) ==> d == Respond(403, ErrorBody(NoLicenseMessage))
  {
    if !isLicensed(feature) then Respond(403, ErrorBody(NoLicenseMessage)) else Next
  }

  /** `createScopedMiddleware`: an anonymous request throws; a failed scope
      check answers 403; a resource that is not found answers 404; any other
      error of the check is rethrown. */
  function ScopeMiddleware(hasUser: bool, check: Result<bool, ScopeError>, missingScopeMessage: string): (d: Decision)
    ensures d.Next? <==> hasUser && check == Ok(true)
    ensures !hasUser ==> d == Throw(Unauthenticated)
    ensures hasUser && check == Ok(false) ==> d == Respond(403, ErrorBody(missingScopeMessage))
    ensures hasUser && check.Err? && check.error.NotFound? ==> d == Respond(404, ErrorBody(check.error.message))
    ensures hasUser && check.Err? && !check.error.NotFound? ==> d == Throw(check.error)
  {
    if !hasUser then Throw(Unauthenticated)
    else match check
      case Ok(allowed) => if allowed then Next else Respond(403, ErrorBody(missingScopeMessage))
      case Err(e) => if e.NotFound? then Respond(404, ErrorBody(e.message)) else Throw(e)
  }
}
