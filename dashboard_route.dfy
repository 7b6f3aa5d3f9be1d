/** The user dashboard endpoint: an auth-cookie guard, then delivery counts by
    status, the derived total and the success rate. The database is an input;
    the rate is kept as an exact real, before the two-decimal rounding of the
    response. */
module DashboardRoute {
  import opened Wrappers
  import opened Http
  import Lists

  /** The `auth` cookie: its raw value, and the `email` that decoding the value
      as JSON yields (`None` when decoding throws). */
  datatype AuthCookie = AuthCookie(value: string, email: Option<string>)

  datatype User = User(id: string, firstName: string, lastName: string, email: string, phoneNumber: string, licenseNumber: string)

  /** The database as the handler queries it: users by email, the status of
      every delivery, and the numbers of patients and riders. A query that
      throws is `DbFailed`. */
  datatype Database =
    | DbFailed
    | Db(users: map<string, User>, deliveryStatuses: seq<string>, patientCount: nat, riderCount: nat)

  datatype DashboardStats = DashboardStats(
    pendingDeliveries: nat,
    activeDeliveries: nat,
    completedDeliveries: nat,
    totalPatients: nat,
    totalRiders: nat,
    totalDeliveries: nat,
    successRate: real)

  /** The share of completed deliveries among the counted ones, in percent;
      zero when nothing is counted, so there is never a division by zero. */
  function SuccessRate(completed: nat, total: nat): (rate: real)
    requires completed <= total
    ensures 0.0 <= rate <= 100.0
    ensures total == 0 ==> rate == 0.0
    ensures completed == total && total > 0 ==> rate == 100.0
    ensures total > 0 ==> rate * (total as real) == 100.0 * (completed as real)
  {
    if total > 0 then (completed as real / total as real) * 100.0 else 0.0
  }

  /** The `stats` object: counts of `PENDING`, `IN_PROGRESS` and `COMPLETED`
      deliveries, their sum as the total (deliveries with any other status are
      left out of it) and the success rate over that total. */
  function ComputeStats(statuses: seq<string>, patientCount: nat, riderCount: nat): (s: DashboardStats)
    ensures s.totalDeliveries == s.pendingDeliveries + s.activeDeliveries + s.completedDeliveries
    ensures s.totalDeliveries <= |statuses|
    ensures s.completedDeliveries <= s.totalDeliveries
    ensures s.successRate == SuccessRate(s.completedDeliveries, s.totalDeliveries)
    ensures s.totalPatients == patientCount && s.totalRiders == riderCount
  {
    var pending := Lists.Count(statuses, Lists.Equals("PENDING"));
    var active := Lists.Count(statuses, Lists.Equals("IN_PROGRESS"));
    var completed := Lists.Count(statuses, Lists.Equals("COMPLETED"));
    Lists.CountDisjoint3(statuses, Lists.Equals("PENDING"), Lists.Equals("IN_PROGRESS"), Lists.Equals("COMPLETED"));
    var total := pending + active + completed;
    DashboardStats(pending, active, completed, patientCount, riderCount, total, SuccessRate(completed, total))
  }

  /** A delivery whose status is none of the three counted ones changes no
      counter and no rate: a failed delivery does not lower the success rate. */
  lemma OtherStatusesExcluded(statuses: seq<string>, other: string, patientCount: nat, riderCount: nat)
    requires other != "PENDING" && other != "IN_PROGRESS" && other != "COMPLETED"
    ensures ComputeStats(statuses + [other], patientCount, riderCount) == ComputeStats(statuses, patientCount, riderCount)
  {
    Lists.CountAppend(statuses, other, Lists.Equals("PENDING"));
    Lists.CountAppend(statuses, other, Lists.Equals("IN_PROGRESS"));
    Lists.CountAppend(statuses, other, Lists.Equals("COMPLETED"));
  }

  /** One more delivery raises exactly the counter its status names, by one,
      and the total with it; no delivery at all gives all zeros. Together the
      two fix each counter as the number of deliveries with that status. */
  lemma StatsAfterNewStatus(statuses: seq<string>, x: string, patientCount: nat, riderCount: nat)
    ensures ComputeStats([], patientCount, riderCount).totalDeliveries == 0
    ensures var before, after := ComputeStats(statuses, patientCount, riderCount), ComputeStats(statuses + [x], patientCount, riderCount);
      after.pendingDeliveries == before.pendingDeliveries + (if x == "PENDING" then 1 else 0)
      && after.activeDeliveries == before.activeDeliveries + (if x == "IN_PROGRESS" then 1 else 0)
      && after.completedDeliveries == before.completedDeliveries + (if x == "COMPLETED" then 1 else 0)
      && after.totalDeliveries == before.totalDeliveries + (if x in {"PENDING", "IN_PROGRESS", "COMPLETED"} then 1 else 0)
  {
    Lists.CountAppend(statuses, x, Lists.Equals("PENDING"));
    Lists.CountAppend(statuses, x, Lists.Equals("IN_PROGRESS"));
    Lists.CountAppend(statuses, x, Lists.Equals("COMPLETED"));
  }

  /** When every delivery is completed the rate is 100, and with no delivery
      at all it is 0. */
  lemma {:induction false} AllCompletedIsFullRate(statuses: seq<string>, patientCount: nat, riderCount: nat)
    requires forall s :: s in statuses ==> s == "COMPLETED"
    ensures ComputeStats(statuses, patientCount, riderCount).successRate == if statuses == [] then 0.0 else 100.0
  {
    Lists.FilterKeepsAll(statuses, Lists.Equals("COMPLETED"));
    Lists.FilterKeepsNone(statuses, Lists.Equals("PENDING"));
    Lists.FilterKeepsNone(statuses, Lists.Equals("IN_PROGRESS"));
  }

  /** Two completed and two pending deliveries give a rate of 50. */
  lemma HalfCompleted()
    ensures ComputeStats(["COMPLETED", "COMPLETED", "PENDING", "PENDING"], 0, 0).successRate == 50.0
  {
    var c, p := "COMPLETED", "PENDING";
    assert c != p && c != "IN_PROGRESS" && p != "IN_PROGRESS" by {
      assert c[0] == 'C' && p[0] == 'P' && "IN_PROGRESS"[0] == 'I';
    }
    var s0: seq<string> := [];
    assert s0 + [c] + [c] + [p] + [p] == [c, c, p, p];
    forall v | v in {c, p, "IN_PROGRESS"}
      ensures Lists.Count([c, c, p, p], Lists.Equals(v)) == (if v == c || v == p then 2 else 0)
    {
      Lists.CountAppend(s0, c, Lists.Equals(v));
      Lists.CountAppend(s0 + [c], c, Lists.Equals(v));
      Lists.CountAppend(s0 + [c] + [c], p, Lists.Equals(v));
      Lists.CountAppend(s0 + [c] + [c] + [p], p, Lists.Equals(v));
    }
  }

  datatype Reply = Failure(error: string) | Dashboard(currentUser: Option<User>, stats: DashboardStats, lastUpdated: string)

  const NotAuthenticated := "Not authenticated"
  const FetchFailedMessage := "Failed to fetch dashboard data"

  /** `GET /api/dashboard`, answered at ISO time `now`. */
  function Get(cookie: Option<AuthCookie>, db: Database, now: string): (r: Response<Reply>)
    ensures cookie.None? || cookie.value.value == "" ==> r == Response(Unauthorized, Failure(NotAuthenticated))
    ensures r.status == OK <==> cookie.Some? && cookie.value.value != "" && cookie.value.email.Some? && db.Db?
    ensures r.status == OK ==> r.body.Dashboard? && r.body.stats == ComputeStats(db.deliveryStatuses, db.patientCount, db.riderCount)
    ensures r.status == OK ==> r.body.currentUser == (var e := cookie.value.email.value; if e in db.users then Some(db.users[e]) else None)
    ensures r.status == Unauthorized <==> cookie.None? || cookie.value.value == ""
    ensures cookie.Some? && cookie.value.value != "" && (cookie.value.email.None? || db.DbFailed?) ==>
              r == Response(ServerError, Failure(FetchFailedMessage))
    ensures r.status in {OK, Unauthorized, ServerError}
  {
    if cookie.None? || cookie.value.value == "" then Response(Unauthorized, Failure(NotAuthenticated))
    else if cookie.value.email.None? || db.DbFailed? then Response(ServerError, Failure(FetchFailedMessage))
    else
      var email := cookie.value.email.value;
      var user := if email in db.users then Some(db.users[email]) else None;
      Response(OK, Dashboard(user, ComputeStats(db.deliveryStatuses, db.patientCount, db.riderCount), now))
  }
}
