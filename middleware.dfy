/**
 * middleware.ts: the route guard run before every page and API request. It
 * classifies the path, then decides in a fixed order between letting the
 * request through and one of three redirects.
 */
module Middleware {
  import opened Wrappers

  predicate StartsWith(s: string, prefix: string) {
    |prefix| <= |s| && s[..|prefix|] == prefix
  }

  /**
   * `createRouteMatcher` patterns: "/x(.*)" is read as "starts with /x", and
   * "/" as exactly "/".
   */
  predicate IsPublicRoute(path: string) {
    path == "/" ||
    StartsWith(path, "/sign-up") ||
    StartsWith(path, "/subscribe") ||
    StartsWith(path, "/api/webhook") ||
    StartsWith(path, "/api/check-subscription") ||
    StartsWith(path, "/personal")
  }

  predicate IsSignUpRoute(path: string) {
    StartsWith(path, "/sign-up")
  }

  predicate IsPlanRoute(path: string) {
    StartsWith(path, "/plan")
  }

  const StatusEndpoint := "/api/check-subscription"

  /** Signed in: the identity provider gave a (truthy) user id. */
  predicate SignedIn(userId: Option<string>) {
    userId.Some? && userId.value != ""
  }

  /**
   * What the guard's `fetch` of the status endpoint produced: the parsed
   * body's `subscriptionActive` field (`None` when the field is absent), or a
   * failure of the fetch or of `response.json()`.
   */
  datatype StatusOutcome = Fetched(subscriptionActive: Option<bool>) | FetchFailed

  /** `!data.subscriptionActive` is false only for a literal `true`. */
  predicate ReportsActive(s: StatusOutcome) {
    s == Fetched(Some(true))
  }

  datatype Decision = PassThrough | RedirectToSignUp | RedirectToPlan | RedirectToSubscribe {
    /** The redirect target, resolved against the request's origin. */
    function Location(): Option<string> {
      match this
      case PassThrough => None
      case RedirectToSignUp => Some("/sign-up/")
      case RedirectToPlan => Some("/plan")
      case RedirectToSubscribe => Some("/subscribe")
    }
  }

  /** Whether the guard fetches the status endpoint for this request. */
  predicate QueriesStatus(path: string, userId: Option<string>) {
    path != StatusEndpoint &&
    !(!IsPublicRoute(path) && !SignedIn(userId)) &&
    !(IsSignUpRoute(path) && SignedIn(userId)) &&
    IsPlanRoute(path) && SignedIn(userId)
  }

  /** The callback passed to `clerkMiddleware`, its checks in source order. */
  function Decide(path: string, userId: Option<string>, status: StatusOutcome): (d: Decision)
    ensures d.Location().Some? ==> path != StatusEndpoint
    ensures d == RedirectToSignUp ==> !IsPublicRoute(path) && !SignedIn(userId)
    ensures d == RedirectToPlan ==> IsSignUpRoute(path) && SignedIn(userId)
    ensures d == RedirectToSubscribe <==> QueriesStatus(path, userId) && !ReportsActive(status)
  {
    if path == StatusEndpoint then PassThrough
    else if !IsPublicRoute(path) && !SignedIn(userId) then RedirectToSignUp
    else if IsSignUpRoute(path) && SignedIn(userId) then RedirectToPlan
    else if IsPlanRoute(path) && SignedIn(userId) then
      (if ReportsActive(status) then PassThrough else RedirectToSubscribe)
    else PassThrough
  }

  /** The status endpoint itself is never redirected, whoever asks. */
  lemma StatusEndpointPassesThrough(userId: Option<string>, status: StatusOutcome)
    ensures Decide(StatusEndpoint, userId, status) == PassThrough
  {
  }

  /** Sign-up and plan routes are disjoint, and neither is the status endpoint. */
  lemma RouteClassesDisjoint(path: string)
    ensures !(IsSignUpRoute(path) && IsPlanRoute(path))
    ensures IsSignUpRoute(path) ==> path != StatusEndpoint && IsPublicRoute(path)
    ensures IsPlanRoute(path) ==> path != StatusEndpoint && !IsPublicRoute(path)
  {
    if IsSignUpRoute(path) {
      assert path[..8][1] == "/sign-up"[1] == 's';
      assert !StartsWith(path, "/plan") by { assert "/plan"[1] == 'p'; }
    }
    if IsPlanRoute(path) {
      assert path[1] == 'p';
      assert path != "/";
      assert !StartsWith(path, "/sign-up") by { assert "/sign-up"[1] != 'p'; }
      assert !StartsWith(path, "/subscribe") by { assert "/subscribe"[1] != 'p'; }
      assert !StartsWith(path, "/api/webhook") by { assert "/api/webhook"[1] != 'p'; }
      assert !StartsWith(path, "/api/check-subscription") by { assert "/api/check-subscription"[1] != 'p'; }
      assert !StartsWith(path, "/personal") by { assert path[2] == 'l' && "/personal"[2] == 'e'; }
    }
  }

  /** A request for a non-public route without a user id goes to sign-up. */
  lemma PrivateRouteNeedsSignIn(path: string, userId: Option<string>, status: StatusOutcome)
    requires !IsPublicRoute(path) && !SignedIn(userId)
    ensures Decide(path, userId, status) == RedirectToSignUp
    ensures Decide(path, userId, status).Location() == Some("/sign-up/")
  {
  }

  /** A signed-in user on a sign-up route goes to the plan page. */
  lemma SignedInSignUpGoesToPlan(path: string, userId: Option<string>, status: StatusOutcome)
    requires IsSignUpRoute(path) && SignedIn(userId)
    ensures Decide(path, userId, status) == RedirectToPlan
    ensures Decide(path, userId, status).Location() == Some("/plan")
  {
    RouteClassesDisjoint(path);
  }

  /**
   * A signed-in user on a plan route passes exactly when the status answer
   * reports `true`; any other answer, and any fetch or parse failure, sends
   * them to subscribe.
   */
  lemma PlanRouteNeedsActiveSubscription(path: string, userId: Option<string>, status: StatusOutcome)
    requires IsPlanRoute(path) && SignedIn(userId)
    ensures QueriesStatus(path, userId)
    ensures Decide(path, userId, status) == if ReportsActive(status) then PassThrough else RedirectToSubscribe
    ensures Decide(path, userId, status).Location() == if ReportsActive(status) then None else Some("/subscribe")
  {
    RouteClassesDisjoint(path);
  }

  /** The status is fetched only for a signed-in request on a plan route; an anonymous `/plan` goes to sign-up unasked. */
  lemma StatusQueriedOnlyForSignedInPlan(path: string, userId: Option<string>)
    ensures QueriesStatus(path, userId) <==> IsPlanRoute(path) && SignedIn(userId)
    ensures !QueriesStatus(path, userId) ==> forall s1, s2 :: Decide(path, userId, s1) == Decide(path, userId, s2)
    ensures IsPlanRoute(path) && !SignedIn(userId) ==> forall s :: Decide(path, userId, s) == RedirectToSignUp
  {
    RouteClassesDisjoint(path);
  }

  /** Every request that no rule above catches passes through, an anonymous sign-up among them. */
  lemma OtherRequestsPassThrough(path: string, userId: Option<string>, status: StatusOutcome)
    requires !(IsSignUpRoute(path) && SignedIn(userId)) && !IsPlanRoute(path)
    requires IsPublicRoute(path) || SignedIn(userId)
    ensures Decide(path, userId, status) == PassThrough
  {
  }
}
