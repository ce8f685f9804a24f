/**
 * The plan catalogue of lib/plans.ts: the three subscription plans offered on
 * the subscribe page and the map from a plan type (the plan's interval, which
 * the webhook later stores as the profile's subscriptionTier) to the payment
 * provider's price id.
 */
module Plans {
  import opened Wrappers

  /** A plan; `amount` is kept in integer cents, description and features are display text and left out. */
  datatype Plan = Plan(name: string, amountCents: nat, currency: string, interval: string, isPopular: bool)

  /** `availablePlans`, in order; an absent `isPopular` is `false`. */
  const AvailablePlans: seq<Plan> := [
    Plan("Weekly Plan", 999, "USD", "week", false),
    Plan("Monthly Plan", 3999, "USD", "month", true),
    Plan("Yearly Plan", 13999, "USD", "year", false)
  ]

  /** The tier vocabulary: the intervals of the available plans. */
  const Tiers: set<string> := {"week", "month", "year"}

  /** The three price ids read from the environment (STRIPE_PRICE_WEEKLY, _MONTHLY, _YEARLY). */
  datatype PriceIds = PriceIds(weekly: string, monthly: string, yearly: string)

  /** `priceIDMap`: the own properties of the record literal. */
  function PriceIdMap(env: PriceIds): (m: map<string, string>)
    ensures m.Keys == Tiers
  {
    map["week" := env.weekly, "month" := env.monthly, "year" := env.yearly]
  }

  /**
   * `getPriceIDFromType` as intended: the configured price id for a known plan
   * type and `undefined` for every other string.
   */
  function GetPriceIdFromType(env: PriceIds, planType: string): (r: Option<string>)
    ensures r.Some? <==> planType in Tiers
    ensures planType == "week" ==> r == Some(env.weekly)
    ensures planType == "month" ==> r == Some(env.monthly)
    ensures planType == "year" ==> r == Some(env.yearly)
  {
    var m := PriceIdMap(env);
    if planType in m then Some(m[planType]) else None
  }

  /** The names every JavaScript object literal inherits from Object.prototype. */
  const ObjectPrototypeKeys: set<string> := {
    "constructor", "hasOwnProperty", "isPrototypeOf", "propertyIsEnumerable",
    "toLocaleString", "toString", "valueOf", "__proto__",
    "__defineGetter__", "__defineSetter__", "__lookupGetter__", "__lookupSetter__"
  }

  /** What a JavaScript property read `obj[key]` can yield here. */
  datatype JsValue = JsString(s: string) | Inherited(property: string) | Undefined

  /**
   * `priceIDMap[planType]` as written: a property read on an object literal,
   * which falls back to the members of Object.prototype when the key is not
   * an own property.
   */
  function GetPriceIdFromTypeAsWritten(env: PriceIds, planType: string): (r: JsValue)
    ensures r.JsString? <==> planType in Tiers
    ensures r.Undefined? <==> planType !in Tiers && planType !in ObjectPrototypeKeys
  {
    var m := PriceIdMap(env);
    if planType in m then JsString(m[planType])
    else if planType in ObjectPrototypeKeys then Inherited(planType)
    else Undefined
  }

  /** A plan type that names no plan and still does not read as `undefined`. */
  lemma AsWrittenLookupLeaksPrototype(env: PriceIds)
    ensures GetPriceIdFromType(env, "toString") == None
    ensures GetPriceIdFromTypeAsWritten(env, "toString") == Inherited("toString")
  {
  }

  /** Where the as-written lookup yields a string, it is the intended price id. */
  lemma AsWrittenAgreesOnStrings(env: PriceIds, planType: string)
    ensures GetPriceIdFromTypeAsWritten(env, planType).JsString? <==> GetPriceIdFromType(env, planType).Some?
    ensures GetPriceIdFromType(env, planType).Some? ==>
              GetPriceIdFromTypeAsWritten(env, planType) == JsString(GetPriceIdFromType(env, planType).value)
  {
  }

  /**
   * The plans of `plans` whose interval is `interval`: the candidates the
   * profile page's `find` scans, against which `FindByInterval` is stated.
   */
  function WithInterval(plans: seq<Plan>, interval: string): (r: seq<Plan>)
    ensures |r| <= |plans|
    ensures forall p :: p in r ==> p in plans && p.interval == interval
    ensures forall p :: p in plans && p.interval == interval ==> p in r
  {
    if plans == [] then []
    else if plans[0].interval == interval then [plans[0]] + WithInterval(plans[1..], interval)
    else WithInterval(plans[1..], interval)
  }

  /**
   * `plans.find((plan) => plan.interval === interval)`: the first plan with
   * that interval, `undefined` when there is none.
   */
  function FindByInterval(plans: seq<Plan>, interval: string): (r: Option<Plan>)
    ensures r.Some? ==> r.value in plans && r.value.interval == interval
    ensures r.None? <==> forall p :: p in plans ==> p.interval != interval
    ensures r.Some? ==> exists i :: 0 <= i < |plans| && plans[i] == r.value &&
                          forall j :: 0 <= j < i ==> plans[j].interval != interval
    ensures r == if WithInterval(plans, interval) == [] then None else Some(WithInterval(plans, interval)[0])
  {
    if plans == [] then None
    else if plans[0].interval == interval then Some(plans[0])
    else
      var r := FindByInterval(plans[1..], interval);
      assert r.Some? ==> exists i :: 0 <= i < |plans| && plans[i] == r.value &&
                          forall j :: 0 <= j < i ==> plans[j].interval != interval by {
        if r.Some? {
          var i :| 0 <= i < |plans[1..]| && plans[1..][i] == r.value &&
                   forall j :: 0 <= j < i ==> plans[1..][j].interval != interval;
          assert plans[i + 1] == r.value;
          forall j | 0 <= j < i + 1 ensures plans[j].interval != interval {
            if j > 0 { assert plans[j] == plans[1..][j - 1]; }
          }
        }
      }
      r
  }

  /** Exactly three plans, with the intervals week, month and year, pairwise distinct. */
  lemma IntervalsAreDistinct()
    ensures |AvailablePlans| == 3
    ensures forall i :: 0 <= i < |AvailablePlans| ==> AvailablePlans[i].interval in Tiers
    ensures forall t :: t in Tiers ==> exists i :: 0 <= i < |AvailablePlans| && AvailablePlans[i].interval == t
    ensures forall i, j :: 0 <= i < j < |AvailablePlans| ==> AvailablePlans[i].interval != AvailablePlans[j].interval
  {
    assert AvailablePlans[0].interval == "week";
    assert AvailablePlans[1].interval == "month";
    assert AvailablePlans[2].interval == "year";
  }

  /**
   * Looking a plan up by a stored tier (the profile page's `find` by interval)
   * finds exactly one plan for a tier of the vocabulary and none otherwise.
   */
  lemma {:induction false} LookupByTierFindsAtMostOne(tier: string)
    ensures |WithInterval(AvailablePlans, tier)| == if tier in Tiers then 1 else 0
  {
    var ps := AvailablePlans;
    var w, m, y := ps[0], ps[1], ps[2];
    assert ps[1..] == [m, y] && ps[1..][1..] == [y] && [y][1..] == [];
    var ry := WithInterval([y], tier);
    assert ry == if y.interval == tier then [y] else [];
    var rm := WithInterval([m, y], tier);
    assert rm == if m.interval == tier then [m] + ry else ry;
    assert WithInterval(ps, tier) == if w.interval == tier then [w] + rm else rm;
  }

  /**
   * The profile page finds a current plan exactly for a tier of the
   * vocabulary, and the plan it finds has that tier as its interval.
   */
  lemma FindByTierFindsPlan(tier: string)
    ensures FindByInterval(AvailablePlans, tier).Some? <==> tier in Tiers
    ensures FindByInterval(AvailablePlans, tier).Some? ==>
              FindByInterval(AvailablePlans, tier).value in AvailablePlans &&
              FindByInterval(AvailablePlans, tier).value.interval == tier
  {
    LookupByTierFindsAtMostOne(tier);
  }

  /** Finding a plan of the table by its own interval yields that plan. */
  lemma FindShowsThePlan(plan: Plan)
    requires plan in AvailablePlans
    ensures FindByInterval(AvailablePlans, plan.interval) == Some(plan)
  {
    IntervalsAreDistinct();
    FindByTierFindsPlan(plan.interval);
    var found := FindByInterval(AvailablePlans, plan.interval).value;
    var i :| 0 <= i < |AvailablePlans| && AvailablePlans[i] == plan;
    var k :| 0 <= k < |AvailablePlans| && AvailablePlans[k] == found;
    assert i == k;
  }

  /** Only the monthly plan is marked popular. */
  lemma OnlyMonthIsPopular()
    ensures forall i :: 0 <= i < |AvailablePlans| ==> (AvailablePlans[i].isPopular <==> AvailablePlans[i].interval == "month")
    ensures |WithInterval(AvailablePlans, "month")| == 1 && WithInterval(AvailablePlans, "month")[0].isPopular
  {
    LookupByTierFindsAtMostOne("month");
    assert AvailablePlans[1] in WithInterval(AvailablePlans, "month");
  }

  /** Every plan the subscribe page can send has a price id. */
  lemma EveryPlanHasPriceId(env: PriceIds)
    ensures forall p :: p in AvailablePlans ==> GetPriceIdFromType(env, p.interval).Some?
  {
  }
}
