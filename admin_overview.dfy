/** The admin overview endpoint: a session and role guard, then statistics
    counted over the patient, delivery and rider lists fetched from the
    database. The fetch itself is an input. */
module AdminOverview {
  import opened Wrappers
  import opened Http
  import Lists

  /** The signed-in user of a session; `role` is absent when the session
      carries none. */
  datatype SessionUser = SessionUser(role: Option<string>)
  datatype Session = Session(user: Option<SessionUser>)

  /** The session lookup: it throws with `message`, or yields a session or null. */
  datatype SessionLookup = SessionFailed(message: string) | SessionFound(session: Option<Session>)

  /** The columns the statistics read; the other selected columns are carried
      along untouched and are not modelled. */
  datatype DeliveryRow = DeliveryRow(id: string, status: string, paymentStatus: string)
  datatype PatientRow = PatientRow(id: string)
  datatype RiderRow = RiderRow(id: string, status: string)

  /** The database transaction: it throws with `message`, or yields the lists. */
  datatype Fetch = FetchFailed(message: string) | Fetched(patients: seq<PatientRow>, deliveries: seq<DeliveryRow>, riders: seq<RiderRow>)

  datatype Stats = Stats(
    totalDeliveries: nat,
    totalPatients: nat,
    totalRiders: nat,
    completedDeliveries: nat,
    pendingDeliveries: nat,
    inProgressDeliveries: nat,
    totalRevenue: nat,
    activeRiders: nat)

  function DeliveryStatusIs(v: string): DeliveryRow -> bool {
    (d: DeliveryRow) => d.status == v
  }

  function PaymentIs(v: string): DeliveryRow -> bool {
    (d: DeliveryRow) => d.paymentStatus == v
  }

  function RiderStatusIs(v: string): RiderRow -> bool {
    (r: RiderRow) => r.status == v
  }

  /** The `stats` block. The three status counts compare exact strings, so they
      never overlap and add up to at most the number of deliveries;
      `totalRevenue` counts paid deliveries (it is not a sum of money). */
  function ComputeStats(patients: seq<PatientRow>, deliveries: seq<DeliveryRow>, riders: seq<RiderRow>): (s: Stats)
    ensures s.totalDeliveries == |deliveries| && s.totalPatients == |patients| && s.totalRiders == |riders|
    ensures s.completedDeliveries + s.pendingDeliveries + s.inProgressDeliveries <= s.totalDeliveries
    ensures s.totalRevenue <= s.totalDeliveries
    ensures s.activeRiders <= s.totalRiders
  {
    Lists.CountDisjoint3(deliveries, DeliveryStatusIs("DELIVERED"), DeliveryStatusIs("PENDING"), DeliveryStatusIs("IN_PROGRESS"));
    Stats(
      |deliveries|,
      |patients|,
      |riders|,
      Lists.Count(deliveries, DeliveryStatusIs("DELIVERED")),
      Lists.Count(deliveries, DeliveryStatusIs("PENDING")),
      Lists.Count(deliveries, DeliveryStatusIs("IN_PROGRESS")),
      Lists.Count(deliveries, PaymentIs("paid")),
      Lists.Count(riders, RiderStatusIs("active")))
  }

  /** A new delivery moves exactly the counters its own status and payment
      match, each by one. */
  lemma StatsAfterNewDelivery(patients: seq<PatientRow>, deliveries: seq<DeliveryRow>, riders: seq<RiderRow>, d: DeliveryRow)
    ensures var before, after := ComputeStats(patients, deliveries, riders), ComputeStats(patients, deliveries + [d], riders);
      after.totalDeliveries == before.totalDeliveries + 1
      && after.completedDeliveries == before.completedDeliveries + (if d.status == "DELIVERED" then 1 else 0)
      && after.pendingDeliveries == before.pendingDeliveries + (if d.status == "PENDING" then 1 else 0)
      && after.inProgressDeliveries == before.inProgressDeliveries + (if d.status == "IN_PROGRESS" then 1 else 0)
      && after.totalRevenue == before.totalRevenue + (if d.paymentStatus == "paid" then 1 else 0)
      && after.activeRiders == before.activeRiders
  {
    Lists.CountAppend(deliveries, d, DeliveryStatusIs("DELIVERED"));
    Lists.CountAppend(deliveries, d, DeliveryStatusIs("PENDING"));
    Lists.CountAppend(deliveries, d, DeliveryStatusIs("IN_PROGRESS"));
    Lists.CountAppend(deliveries, d, PaymentIs("paid"));
  }

  /** A new rider raises the active-rider count by one exactly when its status
      is `active`, and moves no delivery counter. */
  lemma StatsAfterNewRider(patients: seq<PatientRow>, deliveries: seq<DeliveryRow>, riders: seq<RiderRow>, x: RiderRow)
    ensures var before, after := ComputeStats(patients, deliveries, riders), ComputeStats(patients, deliveries, riders + [x]);
      after.totalRiders == before.totalRiders + 1
      && after.activeRiders == before.activeRiders + (if x.status == "active" then 1 else 0)
      && after.(totalRiders := 0, activeRiders := 0) == before.(totalRiders := 0, activeRiders := 0)
  {
    Lists.CountAppend(riders, x, RiderStatusIs("active"));
  }

  datatype Reply =
    | Failure(error: string, details: Option<string>)
    | Overview(stats: Stats, deliveries: seq<DeliveryRow>, patients: seq<PatientRow>, riders: seq<RiderRow>,
               lastUpdated: string, systemStatus: string)

  const NotAuthenticated := "Not authenticated"
  const NotAuthorized := "Not authorized"
  const FetchFailedMessage := "Failed to fetch data from database"

  /** The lookup succeeded and found a session with a user. */
  predicate SignedIn(lookup: SessionLookup) {
    lookup.SessionFound? && lookup.session.Some? && lookup.session.value.user.Some?
  }

  /** The signed-in user's role is exactly "ADMIN". */
  predicate SignedInAsAdmin(lookup: SessionLookup) {
    SignedIn(lookup) && lookup.session.value.user.value.role == Some("ADMIN")
  }

  /** `GET /api/admin/overview`, answered at ISO time `now`. */
  function Get(lookup: SessionLookup, fetch: Fetch, now: string): (r: Response<Reply>)
    ensures lookup.SessionFound? && !SignedIn(lookup) ==> r == Response(Unauthorized, Failure(NotAuthenticated, None))
    ensures r.status == Forbidden <==> SignedIn(lookup) && !SignedInAsAdmin(lookup)
    ensures r.status == OK <==> SignedInAsAdmin(lookup) && fetch.Fetched?
    ensures SignedIn(lookup) && !SignedInAsAdmin(lookup) ==> r == Response(Forbidden, Failure(NotAuthorized, None))
    ensures r.status == OK ==> r.body.Overview? && r.body.stats == ComputeStats(fetch.patients, fetch.deliveries, fetch.riders)
    ensures r.status == OK ==> r.body.deliveries == fetch.deliveries && r.body.patients == fetch.patients && r.body.riders == fetch.riders
    ensures lookup.SessionFailed? ==> r == Response(ServerError, Failure(FetchFailedMessage, Some(lookup.message)))
    ensures SignedInAsAdmin(lookup) && fetch.FetchFailed? ==> r == Response(ServerError, Failure(FetchFailedMessage, Some(fetch.message)))
    ensures r.status in {OK, Unauthorized, Forbidden, ServerError}
  {
    match lookup
    case SessionFailed(message) => Response(ServerError, Failure(FetchFailedMessage, Some(message)))
    case SessionFound(session) =>
      if session.None? || session.value.user.None? then Response(Unauthorized, Failure(NotAuthenticated, None))
      else if session.value.user.value.role != Some("ADMIN") then Response(Forbidden, Failure(NotAuthorized, None))
      else match fetch
        case FetchFailed(message) => Response(ServerError, Failure(FetchFailedMessage, Some(message)))
        case Fetched(patients, deliveries, riders) =>
          Response(OK, Overview(ComputeStats(patients, deliveries, riders), deliveries, patients, riders, now, "operational"))
  }

  /** The guards answer before any data is read: without a signed-in admin the
      response is the same whatever the database holds. */
  lemma GuardsIgnoreData(lookup: SessionLookup, f1: Fetch, f2: Fetch, now: string)
    requires lookup.SessionFound?
    requires !SignedInAsAdmin(lookup)
    ensures Get(lookup, f1, now) == Get(lookup, f2, now)
  {
  }
}
