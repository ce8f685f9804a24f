/**
 * app/api/webhook/route.ts as the program runs it: a profile table updated in
 * place, with a reverse index standing for the unique index on
 * stripeSubscriptionId that `findUnique` uses. Each method is proved to leave
 * exactly the table the functions of module Entitlements describe.
 */
module Webhook {
  import opened Wrappers
  import opened Entitlements

  /** `idx` maps each subscription id held by some row to that row's user id, and nothing else. */
  predicate IndexMatches(p: Profiles, idx: map<SubscriptionId, UserId>) {
    (forall id :: id in idx ==> idx[id] in p && p[idx[id]].stripeSubscriptionId == Some(id)) &&
    (forall u :: u in p && p[u].stripeSubscriptionId.Some? ==>
      p[u].stripeSubscriptionId.value in idx && idx[p[u].stripeSubscriptionId.value] == u)
  }

  /** A table that has an index is one whose subscription ids are unique. */
  lemma IndexedIdsAreUnique(p: Profiles, idx: map<SubscriptionId, UserId>)
    requires IndexMatches(p, idx)
    ensures UniqueSubscriptionIds(p)
  {
    forall u, v | u in p && v in p && u != v && p[u].stripeSubscriptionId.Some?
      ensures p[u].stripeSubscriptionId != p[v].stripeSubscriptionId
    {
      var id := p[u].stripeSubscriptionId.value;
      assert idx[id] == u;
    }
  }

  class ProfileStore {
    var profiles: Profiles
    var bySubscriptionId: map<SubscriptionId, UserId>

    /**
     * The store's own constraint: the index is exact. Unique ids follow from
     * that (`IndexedIdsAreUnique`); the conjunct is kept so that callers of
     * the functions of Entitlements, which require it, need not call the lemma.
     */
    ghost predicate Indexed()
      reads this
    {
      IndexMatches(profiles, bySubscriptionId) && UniqueSubscriptionIds(profiles)
    }

    /** What the webhook keeps besides: an active row records its subscription. */
    ghost predicate Valid()
      reads this
    {
      Indexed() && ActiveHasSubscription(profiles)
    }

    constructor ()
      ensures Valid() && profiles == map[]
    {
      profiles := map[];
      bySubscriptionId := map[];
    }

    /** Profile creation, done outside the webhook: a new row with no subscription. */
    method CreateProfile(userId: UserId) returns (created: bool)
      requires Valid()
      modifies this
      ensures Valid()
      ensures created <==> userId !in old(profiles)
      ensures profiles == if created then old(profiles)[userId := Unsubscribed] else old(profiles)
    {
      created := userId !in profiles;
      if created {
        profiles := profiles[userId := Unsubscribed];
      }
    }

    /** `findUnique` on the unique stripeSubscriptionId index; `fault` is an unreachable store. */
    method FindBySubscriptionId(id: SubscriptionId, fault: bool) returns (r: Lookup)
      requires Indexed()
      ensures r == FindUnique(profiles, id, fault)
    {
      if fault {
        return LookupError;
      }
      if id in bySubscriptionId {
        r := Found(bySubscriptionId[id]);
      } else {
        r := NotFound;
      }
    }

    /** `prisma.profile.update({ where: { userId }, data: d })`, keeping the index in step. */
    method Update(userId: UserId, d: Patch, fault: bool) returns (w: WriteOutcome)
      requires Indexed()
      modifies this
      ensures Indexed()
      ensures w == WriteOutcomeOf(old(profiles), userId, d, fault)
      ensures profiles == Entitlements.Update(old(profiles), userId, d, fault)
    {
      if userId !in profiles {
        return WriteFailed(RecordNotFound);
      }
      if d.stripeSubscriptionId.Some? && d.stripeSubscriptionId.value.Some? {
        var id := d.stripeSubscriptionId.value.value;
        if id in bySubscriptionId && bySubscriptionId[id] != userId {
          assert Clashes(profiles, userId, d);
          return WriteFailed(UniqueConstraintFailed);
        }
      }
      assert !Clashes(profiles, userId, d);
      if fault {
        return WriteFailed(StoreUnavailable);
      }
      var before := profiles[userId];
      var after := Apply(before, d);
      var idx := bySubscriptionId;
      if before.stripeSubscriptionId.Some? {
        idx := idx - {before.stripeSubscriptionId.value};
      }
      if after.stripeSubscriptionId.Some? {
        idx := idx[after.stripeSubscriptionId.value := userId];
      }
      profiles := profiles[userId := after];
      bySubscriptionId := idx;
      IndexedIdsAreUnique(profiles, bySubscriptionId);
      w := Written;
    }

    method HandleCheckoutSessionCompleted(
      clerkUserId: Option<string>, subscription: Option<string>, planType: Option<string>, f: Faults)
      returns (r: RoutineResult)
      requires Valid()
      modifies this
      ensures Valid()
      ensures Step(r, profiles) == CheckoutSessionCompleted(old(profiles), clerkUserId, subscription, planType, f)
    {
      if !Present(clerkUserId) {
        return MissingUserId;
      }
      if !Present(subscription) {
        return MissingSubscriptionId;
      }
      var w := Update(clerkUserId.value, CheckoutPatch(subscription.value, planType), f.writeFails);
      r := Attempted(w);
    }

    /** The lookup-then-update of the invoice and deletion routines. */
    method UpdateSubscriber(id: SubscriptionId, d: Patch, f: Faults) returns (r: RoutineResult)
      requires Indexed()
      modifies this
      ensures Indexed()
      ensures Step(r, profiles) == Entitlements.UpdateSubscriber(old(profiles), id, d, f)
    {
      var found := FindBySubscriptionId(id, f.lookupFails);
      match found
      case LookupError => r := LookupFailed;
      case NotFound => r := NoProfileFound;
      case Found(userId) =>
        if userId == "" {
          r := NoProfileFound;
        } else {
          var w := Update(userId, d, f.writeFails);
          r := Attempted(w);
        }
    }

    method HandleInvoicePaymentFailed(subscription: Option<string>, f: Faults) returns (r: RoutineResult)
      requires Valid()
      modifies this
      ensures Valid()
      ensures Step(r, profiles) == InvoicePaymentFailed(old(profiles), subscription, f)
    {
      if !Present(subscription) {
        return MissingSubscriptionId;
      }
      r := UpdateSubscriber(subscription.value, InvoiceFailedPatch, f);
    }

    method HandleCustomerSubscriptionDeleted(id: SubscriptionId, f: Faults) returns (r: RoutineResult)
      requires Valid()
      modifies this
      ensures Valid()
      ensures Step(r, profiles) == CustomerSubscriptionDeleted(old(profiles), id, f)
    {
      r := UpdateSubscriber(id, SubscriptionDeletedPatch, f);
    }

    /** POST: reject an unverified request, else run the one routine the event type names and acknowledge. */
    method Post(v: Verification, f: Faults) returns (resp: Response)
      requires Valid()
      modifies this
      ensures Valid()
      ensures Reply(resp, profiles) == Entitlements.Post(old(profiles), v, f)
    {
      if v.Rejected? {
        return BadRequest(v.message);
      }
      var r: RoutineResult;
      match v.event {
        case CheckoutCompleted(u, s, t) => r := HandleCheckoutSessionCompleted(u, s, t, f);
        case InvoiceFailed(s) => r := HandleInvoicePaymentFailed(s, f);
        case SubscriptionDeleted(id) => r := HandleCustomerSubscriptionDeleted(id, f);
        case Other(_) => r := Unhandled;
      }
      resp := Acknowledged;
    }
  }
}
