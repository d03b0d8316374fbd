/**
 * The provider's dashboard: it loads the provider's appointments, derives
 * the upcoming ones, and refuses users who are not providers.
 */
module ProviderDashboard {
  import opened JsValues
  import opened JsArray
  import opened Entities
  import RouteGuard

  /** `new Date(a.start) > now`: an unparseable start is never in the future. */
  predicate StartsAfter(now: int, a: Appointment)
  {
    a.start.Some? && a.start.value > now
  }

  /** The `upcoming` list: the appointments that start strictly after `now`, in their order. */
  function Upcoming(items: seq<Appointment>, now: int): (r: seq<Appointment>)
    ensures IsSubsequence(r, items)
    ensures forall i :: 0 <= i < |r| ==> r[i].start.Some? && r[i].start.value > now
    ensures forall a :: multiset(r)[a] == if StartsAfter(now, a) then multiset(items)[a] else 0
  {
    Filter(items, a => StartsAfter(now, a))
  }

  /** An appointment is upcoming exactly when it is loaded and starts after `now`. */
  lemma UpcomingMembership(items: seq<Appointment>, now: int, a: Appointment)
    ensures a in Upcoming(items, now) <==> a in items && a.start.Some? && a.start.value > now
  {
    FilterMembership(items, b => StartsAfter(now, b), a);
  }

  /** A later `now` never adds an appointment: everything upcoming later was upcoming earlier. */
  lemma UpcomingShrinksOverTime(items: seq<Appointment>, now: int, later: int, a: Appointment)
    requires now <= later
    ensures a in Upcoming(items, later) ==> a in Upcoming(items, now)
  {
    UpcomingMembership(items, now, a);
    UpcomingMembership(items, later, a);
  }

  /** "Access Denied": no user, or a role other than "provider". */
  predicate AccessDenied(user: UserValue)
  {
    !HasUser(user) || user.user.role != Some("provider")
  }

  /**
   * The dashboard and the route guard agree: behind a guard that admits
   * only providers the page never denies access, and an authenticated
   * provider passes both.
   */
  lemma GuardAndDashboardAgree(isAuthenticated: bool, user: UserValue)
    ensures RouteGuard.Decide(isAuthenticated, user, Some(["provider"])) == RouteGuard.RenderChildren ==>
            !AccessDenied(user)
    ensures isAuthenticated && !AccessDenied(user) ==>
            RouteGuard.Decide(isAuthenticated, user, Some(["provider"])) == RouteGuard.RenderChildren
  {
  }

  class DashboardView {
    var appointments: seq<Appointment>
    var upcoming: seq<Appointment>
    var loading: bool

    constructor ()
      ensures appointments == [] && upcoming == [] && loading
    {
      appointments := [];
      upcoming := [];
      loading := true;
    }

    /**
     * The load effect. Without a provider id nothing is requested and the
     * view keeps loading. Otherwise both lists are replaced only by a reply
     * whose `status` is "ok", with `upcoming` taken at the instant `now`;
     * loading ends whatever the outcome.
     */
    method Load(user: UserValue, reply: Fetched<ListBody<Appointment>>, now: int) returns (requested: bool)
      requires StatusOk(reply) ==> reply.body.value.items.Some?
      modifies this
      ensures requested == HasProviderId(user)
      ensures !requested ==> appointments == old(appointments) && upcoming == old(upcoming) && loading == old(loading)
      ensures requested ==> !loading
      ensures requested && StatusOk(reply) ==>
                appointments == reply.body.value.items.value && upcoming == Upcoming(appointments, now)
      ensures requested && !StatusOk(reply) ==> appointments == old(appointments) && upcoming == old(upcoming)
    {
      if !HasProviderId(user) {
        return false;
      }
      requested := true;
      if StatusOk(reply) {
        var items := reply.body.value.items.value;
        appointments := items;
        upcoming := Upcoming(items, now);
      }
      loading := false;
    }
  }
}
