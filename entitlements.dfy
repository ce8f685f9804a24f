/**
 * The entitlement state machine behind app/api/webhook/route.ts, stated on
 * values: the profile table as a map from user id to the three subscription
 * fields, the store's update-by-key and find-by-subscription-id, the three
 * reconciliation routines, the POST dispatch and a sequential trace of
 * deliveries. The class in webhook.dfy is proved to do exactly this.
 */
module Entitlements {
  import opened Wrappers

  type UserId = string
  type SubscriptionId = string

  /** The subscription fields of a profile row; the row's key, userId, is its key in `Profiles`. */
  datatype Profile = Profile(
    stripeSubscriptionId: Option<SubscriptionId>,
    subscriptionActive: bool,
    subscriptionTier: Option<string>)

  type Profiles = map<UserId, Profile>

  /** A row as profile creation leaves it: no subscription. */
  const Unsubscribed := Profile(None, false, None)

  /** JavaScript truthiness of an optional string: `undefined`, `null` and "" are all falsy. */
  predicate Present(s: Option<string>) {
    s.Some? && s.value != ""
  }

  /** The store's unique index on stripeSubscriptionId: no two rows hold the same id. */
  predicate UniqueSubscriptionIds(p: Profiles) {
    forall u, v :: u in p && v in p && u != v && p[u].stripeSubscriptionId.Some? ==>
      p[u].stripeSubscriptionId != p[v].stripeSubscriptionId
  }

  /** The entitlement invariant: an active row always records the subscription that pays for it. */
  predicate ActiveHasSubscription(p: Profiles) {
    forall u :: u in p && p[u].subscriptionActive ==> p[u].stripeSubscriptionId.Some?
  }

  /** The row, if any, that holds subscription id `id`. */
  function Owner(p: Profiles, id: SubscriptionId): (r: Option<UserId>)
    requires UniqueSubscriptionIds(p)
    ensures r.Some? ==> r.value in p && p[r.value].stripeSubscriptionId == Some(id)
    ensures r.None? ==> forall u :: u in p ==> p[u].stripeSubscriptionId != Some(id)
  {
    if exists u :: u in p && p[u].stripeSubscriptionId == Some(id) then
      var u :| u in p && p[u].stripeSubscriptionId == Some(id);
      Some(u)
    else
      None
  }

  // ---------------------------------------------------------------- the store

  /**
   * The `data` of a `prisma.profile.update`: each field is either left alone
   * (`None`) or set to the given value (`Some(v)`, where `v` may itself be null).
   */
  datatype Patch = Patch(
    stripeSubscriptionId: Option<Option<SubscriptionId>>,
    subscriptionActive: Option<bool>,
    subscriptionTier: Option<Option<string>>)

  function Apply(row: Profile, d: Patch): (r: Profile)
    ensures d.stripeSubscriptionId.None? ==> r.stripeSubscriptionId == row.stripeSubscriptionId
    ensures d.subscriptionActive.None? ==> r.subscriptionActive == row.subscriptionActive
    ensures d.subscriptionTier.None? ==> r.subscriptionTier == row.subscriptionTier
    ensures d.stripeSubscriptionId.Some? ==> r.stripeSubscriptionId == d.stripeSubscriptionId.value
    ensures d.subscriptionActive.Some? ==> r.subscriptionActive == d.subscriptionActive.value
    ensures d.subscriptionTier.Some? ==> r.subscriptionTier == d.subscriptionTier.value
  {
    Profile(
      if d.stripeSubscriptionId.Some? then d.stripeSubscriptionId.value else row.stripeSubscriptionId,
      if d.subscriptionActive.Some? then d.subscriptionActive.value else row.subscriptionActive,
      if d.subscriptionTier.Some? then d.subscriptionTier.value else row.subscriptionTier)
  }

  /** Why an update is refused: no row for the key, a clash on the unique index, or the store being unreachable. */
  datatype WriteError = RecordNotFound | UniqueConstraintFailed | StoreUnavailable

  datatype WriteOutcome = Written | WriteFailed(error: WriteError)

  /** Setting `u`'s subscription id to one another row already holds. */
  predicate Clashes(p: Profiles, u: UserId, d: Patch) {
    d.stripeSubscriptionId.Some? && d.stripeSubscriptionId.value.Some? &&
    exists v :: v in p && v != u && p[v].stripeSubscriptionId == d.stripeSubscriptionId.value
  }

  /** Whether `prisma.profile.update({ where: { userId: u }, data: d })` succeeds; `fault` is an unreachable store. */
  function WriteOutcomeOf(p: Profiles, u: UserId, d: Patch, fault: bool): (w: WriteOutcome)
    ensures w == Written <==> u in p && !Clashes(p, u, d) && !fault
    ensures w == WriteFailed(RecordNotFound) <==> u !in p
    ensures w == WriteFailed(UniqueConstraintFailed) ==> u in p && Clashes(p, u, d)
    ensures w == WriteFailed(StoreUnavailable) ==> fault
  {
    if u !in p then WriteFailed(RecordNotFound)
    else if Clashes(p, u, d) then WriteFailed(UniqueConstraintFailed)
    else if fault then WriteFailed(StoreUnavailable)
    else Written
  }

  /** The table after that update: a refused update changes nothing, a successful one changes row `u` only. */
  function Update(p: Profiles, u: UserId, d: Patch, fault: bool): (r: Profiles)
    ensures r.Keys == p.Keys
    ensures forall v :: v in p && v != u ==> r[v] == p[v]
    ensures WriteOutcomeOf(p, u, d, fault).WriteFailed? ==> r == p
    ensures WriteOutcomeOf(p, u, d, fault) == Written ==> r[u] == Apply(p[u], d)
  {
    if WriteOutcomeOf(p, u, d, fault) == Written then p[u := Apply(p[u], d)] else p
  }

  /** A successful write never breaks the unique index. */
  lemma UpdateKeepsIdsUnique(p: Profiles, u: UserId, d: Patch, fault: bool)
    requires UniqueSubscriptionIds(p)
    ensures UniqueSubscriptionIds(Update(p, u, d, fault))
  {
    var r := Update(p, u, d, fault);
    if r != p {
      forall v, w | v in r && w in r && v != w && r[v].stripeSubscriptionId.Some?
        ensures r[v].stripeSubscriptionId != r[w].stripeSubscriptionId
      {
        if v == u {
          assert !Clashes(p, u, d);
        } else if w == u {
          if d.stripeSubscriptionId.Some? && d.stripeSubscriptionId.value.Some? {
            assert !Clashes(p, u, d);
            assert p[v].stripeSubscriptionId != d.stripeSubscriptionId.value;
          }
        }
      }
    }
  }

  /** `prisma.profile.findUnique({ where: { stripeSubscriptionId: id } })`. */
  datatype Lookup = Found(userId: UserId) | NotFound | LookupError

  function FindUnique(p: Profiles, id: SubscriptionId, fault: bool): (r: Lookup)
    requires UniqueSubscriptionIds(p)
    ensures r.Found? <==> !fault && exists u :: u in p && p[u].stripeSubscriptionId == Some(id)
    ensures r.Found? ==> r.userId in p && p[r.userId].stripeSubscriptionId == Some(id)
    ensures r == LookupError <==> fault
  {
    if fault then LookupError
    else match Owner(p, id)
      case Some(u) => Found(u)
      case None => NotFound
  }

  // ---------------------------------------------------------- the routines

  /** The store failures a delivery meets: its one lookup errs, its one update errs. */
  datatype Faults = Faults(lookupFails: bool, writeFails: bool)

  const NoFaults := Faults(false, false)

  /** Where a routine stopped (what it logs), and the table it leaves behind. */
  datatype RoutineResult =
    | MissingUserId
    | MissingSubscriptionId
    | NoProfileFound
    | LookupFailed
    | Attempted(write: WriteOutcome)
    | Unhandled

  datatype Step = Step(result: RoutineResult, after: Profiles)

  /** `session.metadata?.planType || null`. */
  function TierOf(planType: Option<string>): (r: Option<string>)
    ensures r.Some? <==> Present(planType)
    ensures r.Some? ==> r == planType
  {
    if Present(planType) then planType else None
  }

  function CheckoutPatch(id: SubscriptionId, planType: Option<string>): Patch {
    Patch(Some(Some(id)), Some(true), Some(TierOf(planType)))
  }

  const InvoiceFailedPatch := Patch(None, Some(false), None)

  const SubscriptionDeletedPatch := Patch(Some(None), Some(false), Some(None))

  /**
   * handleCheckoutSessionCompleted: without a user id or a subscription id,
   * nothing happens; otherwise one update keyed by the user id.
   */
  function CheckoutSessionCompleted(
    p: Profiles, clerkUserId: Option<string>, subscription: Option<string>, planType: Option<string>, f: Faults): (r: Step)
    requires UniqueSubscriptionIds(p)
    ensures r.after.Keys == p.Keys
    ensures UniqueSubscriptionIds(r.after)
    ensures ActiveHasSubscription(p) ==> ActiveHasSubscription(r.after)
  {
    if !Present(clerkUserId) then Step(MissingUserId, p)
    else if !Present(subscription) then Step(MissingSubscriptionId, p)
    else
      var d := CheckoutPatch(subscription.value, planType);
      UpdateKeepsIdsUnique(p, clerkUserId.value, d, f.writeFails);
      Step(Attempted(WriteOutcomeOf(p, clerkUserId.value, d, f.writeFails)), Update(p, clerkUserId.value, d, f.writeFails))
  }

  /**
   * The lookup-then-update shared by the invoice and deletion routines: find
   * the row holding `id`; a lookup error, no row, or a row whose userId is
   * falsy ends the routine; otherwise one update keyed by that row's user id.
   */
  function UpdateSubscriber(p: Profiles, id: SubscriptionId, d: Patch, f: Faults): (r: Step)
    requires UniqueSubscriptionIds(p)
    ensures r.after.Keys == p.Keys
    ensures UniqueSubscriptionIds(r.after)
  {
    match FindUnique(p, id, f.lookupFails)
    case LookupError => Step(LookupFailed, p)
    case NotFound => Step(NoProfileFound, p)
    case Found(u) =>
      if u == "" then Step(NoProfileFound, p)
      else
        UpdateKeepsIdsUnique(p, u, d, f.writeFails);
        Step(Attempted(WriteOutcomeOf(p, u, d, f.writeFails)), Update(p, u, d, f.writeFails))
  }

  /** handleInvoicePaymentFailed: the id comes from `invoice.subscription` only. */
  function InvoicePaymentFailed(p: Profiles, subscription: Option<string>, f: Faults): (r: Step)
    requires UniqueSubscriptionIds(p)
    ensures r.after.Keys == p.Keys
    ensures UniqueSubscriptionIds(r.after)
    ensures ActiveHasSubscription(p) ==> ActiveHasSubscription(r.after)
  {
    if !Present(subscription) then Step(MissingSubscriptionId, p)
    else UpdateSubscriber(p, subscription.value, InvoiceFailedPatch, f)
  }

  /** handleCustomerSubscriptionDeleted: the id is the deleted subscription's own id. */
  function CustomerSubscriptionDeleted(p: Profiles, id: SubscriptionId, f: Faults): (r: Step)
    requires UniqueSubscriptionIds(p)
    ensures r.after.Keys == p.Keys
    ensures UniqueSubscriptionIds(r.after)
    ensures ActiveHasSubscription(p) ==> ActiveHasSubscription(r.after)
  {
    UpdateSubscriber(p, id, SubscriptionDeletedPatch, f)
  }

  // ---------------------------------------------------------- the endpoint

  /** A verified event, by `event.type`; `Other` is every type the switch does not name. */
  datatype Event =
    | CheckoutCompleted(clerkUserId: Option<string>, subscription: Option<string>, planType: Option<string>)
    | InvoiceFailed(subscription: Option<string>)
    | SubscriptionDeleted(id: SubscriptionId)
    | Other(eventType: string)

  /** The outcome of `stripe.webhooks.constructEvent` on the raw body and signature header. */
  datatype Verification = Verified(event: Event) | Rejected(message: string)

  /** `{}` with status 200, or `{ error }` with status 400. */
  datatype Response = Acknowledged | BadRequest(error: string) {
    function Status(): nat {
      if Acknowledged? then 200 else 400
    }
  }

  /** The switch on `event.type`: at most one routine per event. */
  function Deliver(p: Profiles, e: Event, f: Faults): (r: Step)
    requires UniqueSubscriptionIds(p)
    ensures r.after.Keys == p.Keys
    ensures UniqueSubscriptionIds(r.after)
    ensures ActiveHasSubscription(p) ==> ActiveHasSubscription(r.after)
    ensures e.Other? <==> r.result == Unhandled
  {
    match e
    case CheckoutCompleted(u, s, t) => CheckoutSessionCompleted(p, u, s, t, f)
    case InvoiceFailed(s) => InvoicePaymentFailed(p, s, f)
    case SubscriptionDeleted(id) => CustomerSubscriptionDeleted(p, id, f)
    case Other(_) => Step(Unhandled, p)
  }

  datatype Reply = Reply(response: Response, after: Profiles)

  /** POST: a rejected signature answers 400 with the verifier's message; a verified event is dispatched and answered 200. */
  function Post(p: Profiles, v: Verification, f: Faults): (r: Reply)
    requires UniqueSubscriptionIds(p)
    ensures r.response.Status() == if v.Rejected? then 400 else 200
    ensures v.Rejected? ==> r == Reply(BadRequest(v.message), p)
    ensures v.Verified? ==> r.response == Acknowledged && r.after == Deliver(p, v.event, f).after
  {
    match v
    case Rejected(m) => Reply(BadRequest(m), p)
    case Verified(e) => Reply(Acknowledged, Deliver(p, e, f).after)
  }

  /** One webhook request as it reaches the server, with the store failures it meets. */
  datatype Delivery = Delivery(request: Verification, faults: Faults)

  /** Deliveries handled one after another. */
  function Replay(p: Profiles, ds: seq<Delivery>): (r: Profiles)
    requires UniqueSubscriptionIds(p)
    ensures r.Keys == p.Keys
    ensures UniqueSubscriptionIds(r)
    ensures ActiveHasSubscription(p) ==> ActiveHasSubscription(r)
    decreases |ds|
  {
    if ds == [] then p
    else Replay(Post(p, ds[0].request, ds[0].faults).after, ds[1..])
  }

  // ---------------------------------------------------------- properties

  /**
   * A checkout event with both ids, for an existing row, whose subscription id
   * no other row holds, with the store reachable, sets that row to the new
   * subscription, active, with the event's plan type as tier; every other
   * checkout event leaves the table as it was.
   */
  lemma CheckoutActivates(p: Profiles, u: Option<string>, s: Option<string>, t: Option<string>, f: Faults)
    requires UniqueSubscriptionIds(p)
    ensures var r := CheckoutSessionCompleted(p, u, s, t, f);
      if Present(u) && Present(s) && u.value in p && !f.writeFails &&
         (forall v :: v in p && v != u.value ==> p[v].stripeSubscriptionId != s)
      then r.result == Attempted(Written) && r.after == p[u.value := Profile(s, true, TierOf(t))]
      else r.after == p
  {
  }

  /**
   * An invoice-failed event whose id a row with a non-empty user id holds,
   * with the store reachable, clears that row's active flag and keeps its id
   * and tier; a missing id, no such row or a store error leaves the table as it was.
   */
  lemma InvoiceFailureDeactivates(p: Profiles, s: Option<string>, f: Faults)
    requires UniqueSubscriptionIds(p)
    ensures var r := InvoicePaymentFailed(p, s, f);
      forall u :: u in p && u != "" && Present(s) && p[u].stripeSubscriptionId == s && !f.lookupFails && !f.writeFails ==>
        r.result == Attempted(Written) && r.after == p[u := p[u].(subscriptionActive := false)]
    ensures var r := InvoicePaymentFailed(p, s, f);
      (!Present(s) || f.lookupFails || f.writeFails || forall u :: u in p && u != "" ==> p[u].stripeSubscriptionId != s) ==>
        r.after == p
  {
  }

  /**
   * A subscription-deleted event whose id a row with a non-empty user id
   * holds, with the store reachable, resets that row to no subscription; with
   * no such row or a store error the table stays as it was.
   */
  lemma DeletionResets(p: Profiles, id: SubscriptionId, f: Faults)
    requires UniqueSubscriptionIds(p)
    ensures var r := CustomerSubscriptionDeleted(p, id, f);
      forall u :: u in p && u != "" && p[u].stripeSubscriptionId == Some(id) && !f.lookupFails && !f.writeFails ==>
        r.result == Attempted(Written) && r.after == p[u := Unsubscribed]
    ensures var r := CustomerSubscriptionDeleted(p, id, f);
      (f.lookupFails || f.writeFails || forall u :: u in p && u != "" ==> p[u].stripeSubscriptionId != Some(id)) ==>
        r.after == p
  {
  }

  /** Every routine that stops early or whose write is refused leaves the table exactly as it was. */
  lemma NoWriteNoChange(p: Profiles, e: Event, f: Faults)
    requires UniqueSubscriptionIds(p)
    ensures Deliver(p, e, f).result != Attempted(Written) ==> Deliver(p, e, f).after == p
  {
  }

  /** A delivery changes at most one row: every write is keyed by a single user id. */
  lemma DeliveryTouchesOneRow(p: Profiles, e: Event, f: Faults)
    requires UniqueSubscriptionIds(p)
    ensures forall v, w :: v in p && w in p && Deliver(p, e, f).after[v] != p[v] && Deliver(p, e, f).after[w] != p[w] ==> v == w
  {
    var r := Deliver(p, e, f);
    match e
    case CheckoutCompleted(u, s, t) =>
      CheckoutActivates(p, u, s, t, f);
    case InvoiceFailed(s) =>
      InvoiceFailureDeactivates(p, s, f);
      if r.after != p {
        var u :| u in p && u != "" && p[u].stripeSubscriptionId == s;
        assert r.after == p[u := p[u].(subscriptionActive := false)];
      }
    case SubscriptionDeleted(id) =>
      DeletionResets(p, id, f);
      if r.after != p {
        var u :| u in p && u != "" && p[u].stripeSubscriptionId == Some(id);
        assert r.after == p[u := Unsubscribed];
      }
    case Other(_) =>
  }

  lemma CheckoutRedelivery(p: Profiles, u: Option<string>, s: Option<string>, t: Option<string>, f1: Faults, f2: Faults)
    requires UniqueSubscriptionIds(p)
    ensures var once := CheckoutSessionCompleted(p, u, s, t, f1).after;
      (f1 == NoFaults ==> CheckoutSessionCompleted(once, u, s, t, f2).after == once) &&
      (f2 == NoFaults ==> CheckoutSessionCompleted(once, u, s, t, f2).after == CheckoutSessionCompleted(p, u, s, t, f2).after)
  {
    var once := CheckoutSessionCompleted(p, u, s, t, f1).after;
    CheckoutActivates(p, u, s, t, f1);
    CheckoutActivates(p, u, s, t, f2);
    CheckoutActivates(once, u, s, t, f2);
  }

  lemma InvoiceRedelivery(p: Profiles, s: Option<string>, f1: Faults, f2: Faults)
    requires UniqueSubscriptionIds(p)
    ensures var once := InvoicePaymentFailed(p, s, f1).after;
      (f1 == NoFaults ==> InvoicePaymentFailed(once, s, f2).after == once) &&
      (f2 == NoFaults ==> InvoicePaymentFailed(once, s, f2).after == InvoicePaymentFailed(p, s, f2).after)
  {
    var once := InvoicePaymentFailed(p, s, f1).after;
    InvoiceFailureDeactivates(p, s, f1);
    InvoiceFailureDeactivates(p, s, f2);
    InvoiceFailureDeactivates(once, s, f2);
    if once != p {
      var u :| u in p && u != "" && p[u].stripeSubscriptionId == s;
      assert once == p[u := p[u].(subscriptionActive := false)];
      assert once[u].stripeSubscriptionId == s;
    }
  }

  lemma DeletionRedelivery(p: Profiles, id: SubscriptionId, f1: Faults, f2: Faults)
    requires UniqueSubscriptionIds(p)
    ensures var once := CustomerSubscriptionDeleted(p, id, f1).after;
      (f1 == NoFaults ==> CustomerSubscriptionDeleted(once, id, f2).after == once) &&
      (f2 == NoFaults ==> CustomerSubscriptionDeleted(once, id, f2).after == CustomerSubscriptionDeleted(p, id, f2).after)
  {
    var once := CustomerSubscriptionDeleted(p, id, f1).after;
    DeletionResets(p, id, f1);
    DeletionResets(p, id, f2);
    DeletionResets(once, id, f2);
    if once != p {
      var u :| u in p && u != "" && p[u].stripeSubscriptionId == Some(id);
      assert once == p[u := Unsubscribed];
      assert forall v :: v in once && v != "" ==> once[v].stripeSubscriptionId != Some(id);
    }
  }

  /**
   * Delivering an event a second time, after a clean first delivery, changes
   * nothing more; and a clean redelivery after any first attempt ends where a
   * single clean delivery would.
   */
  lemma RedeliveryIsIdempotent(p: Profiles, e: Event, f1: Faults, f2: Faults)
    requires UniqueSubscriptionIds(p)
    ensures f1 == NoFaults ==> Deliver(Deliver(p, e, f1).after, e, f2).after == Deliver(p, e, f1).after
    ensures f2 == NoFaults ==> Deliver(Deliver(p, e, f1).after, e, f2).after == Deliver(p, e, f2).after
  {
    match e
    case CheckoutCompleted(u, s, t) => CheckoutRedelivery(p, u, s, t, f1, f2);
    case InvoiceFailed(s) => InvoiceRedelivery(p, s, f1, f2);
    case SubscriptionDeleted(id) => DeletionRedelivery(p, id, f1, f2);
    case Other(_) =>
  }

  /** A trace of requests whose signatures all fail leaves the table untouched. */
  lemma {:induction false} RejectedTraceChangesNothing(p: Profiles, ds: seq<Delivery>)
    requires UniqueSubscriptionIds(p)
    requires forall i :: 0 <= i < |ds| ==> ds[i].request.Rejected?
    ensures Replay(p, ds) == p
  {
    if ds != [] {
      RejectedTraceChangesNothing(p, ds[1..]);
    }
  }

  /**
   * The lifecycle of one subscription for a user with a fresh row: checkout,
   * then a failed invoice, then deletion of the subscription.
   */
  lemma SubscriptionLifecycle(u: UserId, sub: SubscriptionId, planType: string)
    requires u != "" && sub != "" && planType != ""
    ensures var p0 := map[u := Unsubscribed];
      var p1 := map[u := Profile(Some(sub), true, Some(planType))];
      var p2 := map[u := Profile(Some(sub), false, Some(planType))];
      Post(p0, Verified(CheckoutCompleted(Some(u), Some(sub), Some(planType))), NoFaults).after == p1 &&
      Post(p1, Verified(InvoiceFailed(Some(sub))), NoFaults).after == p2 &&
      Post(p2, Verified(SubscriptionDeleted(sub)), NoFaults).after == p0
  {
    var p0 := map[u := Unsubscribed];
    var p1 := map[u := Profile(Some(sub), true, Some(planType))];
    var p2 := map[u := Profile(Some(sub), false, Some(planType))];
    CheckoutActivates(p0, Some(u), Some(sub), Some(planType), NoFaults);
    assert p0[u := Profile(Some(sub), true, Some(planType))] == p1;
    InvoiceFailureDeactivates(p1, Some(sub), NoFaults);
    assert p1[u := p1[u].(subscriptionActive := false)] == p2;
    DeletionResets(p2, sub, NoFaults);
    assert p2[u := Unsubscribed] == p0;
  }

  /** The same lifecycle for user `u1`, subscription `sub_1` and the monthly plan. */
  lemma ExampleLifecycle()
    ensures var p0 := map["u1" := Unsubscribed];
      var p1 := Post(p0, Verified(CheckoutCompleted(Some("u1"), Some("sub_1"), Some("month"))), NoFaults).after;
      p1 == map["u1" := Profile(Some("sub_1"), true, Some("month"))] &&
      var p2 := Post(p1, Verified(InvoiceFailed(Some("sub_1"))), NoFaults).after;
      p2 == map["u1" := Profile(Some("sub_1"), false, Some("month"))] &&
      Post(p2, Verified(SubscriptionDeleted("sub_1")), NoFaults).after == p0
  {
    SubscriptionLifecycle("u1", "sub_1", "month");
  }
}
