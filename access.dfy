/**
 * How the pieces meet: the route guard asks the status endpoint, the status
 * endpoint reads the flag the webhook writes, and the tier the webhook
 * stores is the plan interval the subscribe page sent.
 */
module Access {
  import opened Wrappers
  import opened Entitlements
  import opened CheckSubscription
  import opened Middleware
  import Plans

  /**
   * What the guard's `response.json()` yields for an answer of the status
   * endpoint: the field of a 200 body; an error body has no such field.
   */
  function ParsedStatus(r: StatusResponse): (s: StatusOutcome)
    ensures ReportsActive(s) <==> r == StatusBody(Some(true))
    ensures s.Fetched?
  {
    match r
    case StatusBody(a) => Fetched(a)
    case StatusError(_, _) => Fetched(None)
  }

  /** The guard's verdict on `path` for user `u`, given the table the status endpoint reads. */
  function GuardOverStore(p: Profiles, path: string, u: UserId, storeFails: bool): Decision {
    Decide(path, Some(u), ParsedStatus(Get(p, Some(u), storeFails)))
  }

  /**
   * A signed-in user reaches a plan route exactly when their profile exists
   * and is active and the store answered; otherwise they go to subscribe.
   */
  lemma PlanAccessFollowsStore(p: Profiles, path: string, u: UserId, storeFails: bool)
    requires IsPlanRoute(path) && u != ""
    ensures GuardOverStore(p, path, u, storeFails) ==
      if !storeFails && u in p && p[u].subscriptionActive then PassThrough else RedirectToSubscribe
  {
    PlanRouteNeedsActiveSubscription(path, Some(u), ParsedStatus(Get(p, Some(u), storeFails)));
    ReportsActiveOnlyForActiveProfile(p, Some(u), storeFails);
  }

  /**
   * After a checkout that is written, the user reaches plan routes; a failed
   * invoice and a deletion of that subscription each take that access away.
   */
  lemma WebhookDrivesPlanAccess(p: Profiles, path: string, u: UserId, sub: SubscriptionId, planType: Option<string>)
    requires UniqueSubscriptionIds(p)
    requires IsPlanRoute(path) && u != "" && sub != "" && u in p
    requires forall v :: v in p && v != u ==> p[v].stripeSubscriptionId != Some(sub)
    ensures var p1 := Post(p, Verified(CheckoutCompleted(Some(u), Some(sub), planType)), NoFaults).after;
      GuardOverStore(p1, path, u, false) == PassThrough &&
      GuardOverStore(Post(p1, Verified(InvoiceFailed(Some(sub))), NoFaults).after, path, u, false) == RedirectToSubscribe &&
      GuardOverStore(Post(p1, Verified(SubscriptionDeleted(sub)), NoFaults).after, path, u, false) == RedirectToSubscribe
  {
    CheckoutActivates(p, Some(u), Some(sub), planType, NoFaults);
    var p1 := Post(p, Verified(CheckoutCompleted(Some(u), Some(sub), planType)), NoFaults).after;
    assert p1 == p[u := Profile(Some(sub), true, TierOf(planType))];
    PlanAccessFollowsStore(p1, path, u, false);
    InvoiceFailureDeactivates(p1, Some(sub), NoFaults);
    PlanAccessFollowsStore(Post(p1, Verified(InvoiceFailed(Some(sub))), NoFaults).after, path, u, false);
    DeletionResets(p1, sub, NoFaults);
    PlanAccessFollowsStore(Post(p1, Verified(SubscriptionDeleted(sub)), NoFaults).after, path, u, false);
  }

  /**
   * A checkout started from the subscribe page sends a plan's interval as
   * planType; once written, the stored tier names exactly one plan, that
   * plan has a price id, and the profile page's `find` shows that very plan.
   */
  lemma StoredTierNamesOnePlan(
    p: Profiles, u: UserId, sub: SubscriptionId, plan: Plans.Plan, env: Plans.PriceIds)
    requires UniqueSubscriptionIds(p)
    requires plan in Plans.AvailablePlans
    requires u != "" && sub != "" && u in p
    requires forall v :: v in p && v != u ==> p[v].stripeSubscriptionId != Some(sub)
    ensures var p1 := Post(p, Verified(CheckoutCompleted(Some(u), Some(sub), Some(plan.interval))), NoFaults).after;
      p1[u].subscriptionTier == Some(plan.interval) &&
      |Plans.WithInterval(Plans.AvailablePlans, plan.interval)| == 1 &&
      Plans.GetPriceIdFromType(env, plan.interval).Some? &&
      Plans.FindByInterval(Plans.AvailablePlans, p1[u].subscriptionTier.value) == Some(plan)
  {
    Plans.IntervalsAreDistinct();
    Plans.LookupByTierFindsAtMostOne(plan.interval);
    Plans.FindShowsThePlan(plan);
    CheckoutActivates(p, Some(u), Some(sub), Some(plan.interval), NoFaults);
  }
}
