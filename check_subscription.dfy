/**
 * app/api/check-subscription/route.ts: GET `?userId=…` answers the stored
 * subscriptionActive flag of that user's profile. The route guard cannot
 * reach the store itself and asks this endpoint instead.
 */
module CheckSubscription {
  import opened Wrappers
  import opened Entitlements

  /**
   * The JSON answer: `{ subscriptionActive }` with status 200, where the
   * field is `undefined` (`None`) when the user has no profile; or
   * `{ error }` with status 400 or 500.
   */
  datatype StatusResponse = StatusBody(subscriptionActive: Option<bool>) | StatusError(status: nat, error: string) {
    function Status(): nat {
      if StatusBody? then 200 else status
    }
  }

  /**
   * GET, on the table `p`: `userId` is the query parameter (`None` when
   * absent) and `storeFails` an unreachable store. Being a function of `p`,
   * it cannot change the table.
   */
  function Get(p: Profiles, userId: Option<string>, storeFails: bool): (r: StatusResponse)
    ensures r == StatusError(400, "Missing userId.") <==> !Present(userId)
    ensures r == StatusError(500, "Internal Error.") <==> Present(userId) && storeFails
    ensures r.StatusBody? <==> Present(userId) && !storeFails
    ensures r.Status() == (if !Present(userId) then 400 else if storeFails then 500 else 200)
    ensures r.StatusBody? ==> (r.subscriptionActive.Some? <==> userId.value in p)
    ensures r.StatusBody? && userId.value in p ==> r.subscriptionActive == Some(p[userId.value].subscriptionActive)
  {
    if !Present(userId) then StatusError(400, "Missing userId.")
    else if storeFails then StatusError(500, "Internal Error.")
    else if userId.value in p then StatusBody(Some(p[userId.value].subscriptionActive))
    else StatusBody(None)
  }

  /** The endpoint reports `true` exactly for a user whose profile exists and is active. */
  lemma ReportsActiveOnlyForActiveProfile(p: Profiles, userId: Option<string>, storeFails: bool)
    ensures Get(p, userId, storeFails) == StatusBody(Some(true)) <==>
      Present(userId) && !storeFails && userId.value in p && p[userId.value].subscriptionActive
  {
  }
}
