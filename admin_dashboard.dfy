/** The admin dashboard (src/pages/adminPage/AdminDashboardStats.tsx): how the stats
    are fetched, the login redirect, and the fallbacks of the recent-orders table and
    the role counts. */
module AdminDashboard {
  import opened Base
  import opened Text

  /** A row of `recentOrders`; absent fields are None. */
  datatype RecentOrder = RecentOrder(id: string, orderNumber: Option<string>, customerName: Option<string>,
                                     totalAmount: Option<int>, paymentStatus: string)

  datatype RoleCounts = RoleCounts(user: Option<int>, admin: Option<int>, organizer: Option<int>)

  datatype Stats = Stats(recentOrders: seq<RecentOrder>, userRoles: RoleCounts)

  /** The body of `admin-dashboard-stats`; `stats` is None when absent. */
  datatype StatsBody = StatsBody(success: bool, stats: Option<Stats>)

  predicate Truthy(s: Option<string>) { s.Some? && s.value != "" }

  /** The "Order #" cell: `order.orderNumber || order._id.slice(-6)`. */
  function OrderLabel(o: RecentOrder): (shown: string)
    ensures Truthy(o.orderNumber) ==> shown == o.orderNumber.value
    ensures !Truthy(o.orderNumber) ==>
              |shown| == (if |o.id| < 6 then |o.id| else 6) && shown == o.id[|o.id| - |shown|..]
  {
    if Truthy(o.orderNumber) then o.orderNumber.value else SliceLast(o.id, 6)
  }

  /** The "Customer" cell: `order.user?.name || 'Guest'`. */
  function CustomerLabel(o: RecentOrder): (shown: string)
    ensures Truthy(o.customerName) ==> shown == o.customerName.value
    ensures !Truthy(o.customerName) ==> shown == "Guest"
    ensures shown != ""
  {
    if Truthy(o.customerName) then o.customerName.value else "Guest"
  }

  /** The amount formatted in the "Amount" cell: `order.totalAmount || 0`. A given
      amount is shown as it is, and a missing one counts as 0. */
  function Amount(o: RecentOrder): (a: int)
    ensures o.totalAmount.Some? ==> a == o.totalAmount.value
    ensures a == 0 <==> o.totalAmount.None? || o.totalAmount.value == 0
  {
    o.totalAmount.GetOr(0)
  }

  /** The status badge: green for "paid", yellow for every other status. */
  function StatusBadgeColor(status: string): (color: string)
    ensures color == "bg-green-100 text-green-700" <==> status == "paid"
    ensures color != "bg-green-100 text-green-700" ==> color == "bg-yellow-100 text-yellow-700"
  {
    if status == "paid" then "bg-green-100 text-green-700" else "bg-yellow-100 text-yellow-700"
  }

  /** A role count as shown: `count || 0`. */
  function RoleCount(c: Option<int>): int {
    c.GetOr(0)
  }

  /** The three counts of the roles card, in the order shown: users, organizers,
      admins (not the order of the record); a present count shows as it is, a
      missing one as 0. */
  function RoleCard(r: RoleCounts): (shown: seq<int>)
    ensures |shown| == 3
    ensures r.user.Some? ==> shown[0] == r.user.value
    ensures r.organizer.Some? ==> shown[1] == r.organizer.value
    ensures r.admin.Some? ==> shown[2] == r.admin.value
    ensures r == RoleCounts(None, None, None) ==> shown == [0, 0, 0]
  {
    [RoleCount(r.user), RoleCount(r.organizer), RoleCount(r.admin)]
  }

  /** What the page renders. */
  datatype View = Spinner | Nothing | Dashboard(stats: Stats)

  function ViewOf(loading: bool, stats: Option<Stats>): (v: View)
    ensures v == Spinner <==> loading
    ensures v == Nothing <==> !loading && stats.None?
    ensures v.Dashboard? ==> stats == Some(v.stats)
  {
    if loading then Spinner else if stats.None? then Nothing else Dashboard(stats.value)
  }

  // ---- fetching, and the login redirect ----

  /** Where the effect's `catch` navigates for what `getDashboardStats()` hands back
      (a body, or the failure it throws): "/login" for a thrown 401 or 403. */
  function RedirectOf(result: Response<StatsBody>): (target: Option<string>)
    ensures target.Some? <==> result.Fail? && IsAuthFailure(result.failure)
    ensures target.Some? ==> target.value == "/login"
  {
    if result.Fail? && IsAuthFailure(result.failure) then Some("/login") else None
  }

  /** `getDashboardStats` in the context as written: the body of a 2xx answer, and
      `{success: false}` for every failure, which it catches. */
  function ContextStatsAsWritten(resp: Response<StatsBody>): (r: StatsBody)
    ensures resp.Ok? ==> r == resp.body
    ensures resp.Fail? ==> !r.success && r.stats.None?
  {
    match resp
    case Ok(body) => body
    case Fail(_) => StatsBody(false, None)
  }

  /** The page never reaches its redirect: the context never throws, so a 401 or 403
      from the server leaves the admin on an empty dashboard. */
  lemma LoginRedirectUnreachable(resp: Response<StatsBody>)
    ensures RedirectOf(Ok(ContextStatsAsWritten(resp))).None?
    ensures resp == Fail(HttpStatus(401, "")) ==>
              ContextStatsAsWritten(resp) == StatsBody(false, None) && ViewOf(false, None) == Nothing
  {
  }

  /** The context with the authentication failures passed on to the page, as its
      `catch` expects; every other failure is still turned into `{success: false}`. */
  function ContextStatsCorrected(resp: Response<StatsBody>): (r: Response<StatsBody>)
    ensures resp.Fail? && IsAuthFailure(resp.failure) ==> r == resp
    ensures !(resp.Fail? && IsAuthFailure(resp.failure)) ==> r == Ok(ContextStatsAsWritten(resp))
  {
    if resp.Fail? && IsAuthFailure(resp.failure) then resp else Ok(ContextStatsAsWritten(resp))
  }

  /** With the corrected context the page goes to "/login" exactly on a 401 or 403,
      and on every other answer behaves as it does now. */
  lemma LoginRedirectOnAuthFailure(resp: Response<StatsBody>)
    ensures RedirectOf(ContextStatsCorrected(resp)) == Some("/login") <==> resp.Fail? && IsAuthFailure(resp.failure)
    ensures !(resp.Fail? && IsAuthFailure(resp.failure)) ==>
              ContextStatsCorrected(resp) == Ok(ContextStatsAsWritten(resp))
              && RedirectOf(ContextStatsCorrected(resp)) == RedirectOf(Ok(ContextStatsAsWritten(resp)))
  {
  }

  class AdminDashboardPage {
    var loading: bool
    var stats: Option<Stats>

    constructor ()
      ensures loading && stats.None?
    {
      loading := true;
      stats := None;
    }

    /** `fetchStats`, with `result` what `getDashboardStats()` returned or threw:
        a body with `success` replaces the stats, and the page navigates as
        `RedirectOf` says. */
    method FetchStats(result: Response<StatsBody>) returns (navigateTo: Option<string>)
      modifies this
      ensures result.Ok? && result.body.success ==> stats == result.body.stats
      ensures !(result.Ok? && result.body.success) ==> stats == old(stats)
      ensures navigateTo == RedirectOf(result)
      ensures !loading
    {
      loading := true;
      navigateTo := None;
      match result {
        case Ok(body) =>
          if body.success {
            stats := body.stats;
          }
        case Fail(f) =>
          if f.HttpStatus? && (f.status == 401 || f.status == 403) {
            navigateTo := Some("/login");
          }
      }
      loading := false;
    }

    function View(): View
      reads this
    {
      ViewOf(loading, stats)
    }
  }
}
