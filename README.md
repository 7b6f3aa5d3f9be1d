# nimcure delivery core, modelled in Dafny

nimcure is a web application for a pharmacy delivery service. It keeps patients,
dispatch riders and medication deliveries, and lets staff assign packages to
patients. This project models the parts of it that make decisions, one Dafny
module per source file:

- `DeliveryStatus` (`src/utils/delivery.ts`). The read-time timeout rule turns a
  pending delivery into a failed one once its response deadline has passed. The
  colour table gives each status its badge colour. The clock is a parameter `now`.
- `Deliveries`, `Patients`, `Riders` (the three React contexts). Each store holds a
  list of records, modelled as a class with a `seq` field. Its methods replace the
  list the way the context's state setter does: a partial update by id, and an
  append. The lookups (`filter`, `find`) are pure functions over the list. A
  delivery update also stamps `updatedAt` with the current ISO time, which is a
  parameter.
- `PackageSchema` and `AssignRoute`. These are the two wizard form schemas and the
  package-assignment endpoint that composes them. The endpoint validates the
  request, echoes the data back and stores nothing.
- `AdminOverview` and `DashboardRoute`. These endpoints check a session or cookie,
  then count deliveries, patients and riders. The database reads are inputs.
- `Middleware`, `Navigation` and `AuthUtils`. These cover the redirect decision
  for page requests, the highlighting of the current navigation link, and the
  role-based landing page and token tests.
- `RegisterRoute` (`src/app/api/auth/register/route.ts`). A loop checks six
  required fields in order and stops at the first missing one.

`Lists` holds the JavaScript array primitives that the stores and counters are
built from (`filter`, `filter(..).length`, `find`), with lemmas about appending
and disjoint counts. `Wrappers` holds `Option` and `Result`. `Http` holds the
status codes and the response shape.

The code has two different status vocabularies. The delivery record in the
delivery context declares `pending | in_transit | delivered | cancelled`. The
status helpers use `unassigned | pending | in_progress | delivered | failed`.
`Deliveries.Status` covers both, so the colour table's fallback for
`in_transit` and `cancelled` can be stated.

The two statistics endpoints also disagree with each other. The admin overview
counts `DELIVERED` as completed. The user dashboard counts `COMPLETED`, and its
total includes only `PENDING`, `IN_PROGRESS` and `COMPLETED`. A failed delivery
therefore never lowers the dashboard's success rate (`DashboardRoute.OtherStatusesExcluded`).

## Model

| member | source | states |
|---|---|---|
| `DeliveryStatus.CheckDeliveryStatus` | src/utils/delivery.ts:4-21 | The result is the stored status or `failed`. It differs from the stored status exactly when the status is `pending`, a deadline is set, and the deadline is strictly before `now`. |
| `DeliveryStatus.NoTrackingKeepsStatus` | src/utils/delivery.ts:5 | A delivery without tracking keeps its stored status. |
| `DeliveryStatus.DeadlineIsStrict` | src/utils/delivery.ts:12-17 | A pending delivery past its deadline reads `failed`. At `now == deadline` it stays `pending`. |
| `DeliveryStatus.OnlyPendingWithDeadlineChanges` | src/utils/delivery.ts:8-20 | A non-pending status is never altered, and neither is any status without a deadline. |
| `DeliveryStatus.CheckIsIdempotent` | src/utils/delivery.ts:4-21 | Storing the derived status and deriving again at the same `now` gives the same status. |
| `DeliveryStatus.FailedStaysFailed` | src/utils/delivery.ts:12-17 | A delivery that reads `failed` at some time still reads `failed` at every later time. |
| `DeliveryStatus.StatusColor` | src/utils/delivery.ts:23-33 | The result is one of the five table colours. It is the pending colour exactly for `pending` and for statuses missing from the table. |
| `DeliveryStatus.OwnColorsDistinct` | src/utils/delivery.ts:24-30 | The five statuses in the table have pairwise different colours. |
| `DeliveryStatus.RecordOnlyStatusesFallBack` | src/utils/delivery.ts:32 | `in_transit` and `cancelled` fall back to the pending colour. |
| `Deliveries.UpdateById` | src/contexts/DeliveryContext.tsx:66-72 | Length and positions are kept, and records with another id are unchanged. Every record with the id becomes the merge of old record and patch, with `updatedAt` set to `now` even if the patch has its own. |
| `Deliveries.UpdateUnknownId` | src/contexts/DeliveryContext.tsx:68-70 | Updating an id that no record has leaves the list unchanged. |
| `Deliveries.UpdateWithoutChangesOnlyStamps` | src/contexts/DeliveryContext.tsx:69 | An empty patch still stamps `updatedAt` on matching records and changes nothing else. |
| `Deliveries.UpdateKeepsPatientCounts` | src/contexts/DeliveryContext.tsx:66-80 | An update that does not supply `patientId` keeps every patient's number of deliveries. |
| `Deliveries.ByPatient` | src/contexts/DeliveryContext.tsx:78-80 | The result holds exactly the records with that `patientId`. |
| `Deliveries.ByPatientAfterAdd` | src/contexts/DeliveryContext.tsx:74-80 | After an append, the patient query is the old query result, followed by the new record if it belongs to that patient. Order is kept. |
| `Deliveries.InitialDeliveriesShape` | src/contexts/DeliveryContext.tsx:27-61 | The seed deliveries use only the record's declared statuses and all belong to patient "1". |
| `Deliveries.DeliveryStore.constructor` | src/contexts/DeliveryContext.tsx:64 | The store starts with the seed deliveries. |
| `Deliveries.DeliveryStore.UpdateDelivery` | src/contexts/DeliveryContext.tsx:66-72 | The new list is `UpdateById` of the old list. |
| `Deliveries.DeliveryStore.AddDelivery` | src/contexts/DeliveryContext.tsx:74-76 | The new list is the old list plus the record at the end, with no duplicate check. |
| `Deliveries.DeliveryStore.GetDeliveriesByPatient` | src/contexts/DeliveryContext.tsx:78-80 | The result holds exactly the current records with that patient id. |
| `Patients.UpdateById` | src/contexts/PatientsContext.tsx:94-100 | Length and positions are kept, and other ids are unchanged. A matching record becomes the old record overwritten by the supplied fields, with no timestamp added. |
| `Patients.GetPatient` | src/contexts/PatientsContext.tsx:106-108 | The result is none iff no patient has the id. Otherwise it is the first patient with that id. |
| `Patients.GetAfterAdd` | src/contexts/PatientsContext.tsx:102-108 | After an append, lookup is unchanged for ids already present. A fresh id finds the added patient. |
| `Patients.GetAfterUpdate` | src/contexts/PatientsContext.tsx:94-108 | After an update that keeps the id, lookup gives the patient found before, merged with the patch. |
| `Patients.InitialIdsDistinct` | src/contexts/PatientsContext.tsx:28-89 | The five seed patients have pairwise distinct ids. |
| `Patients.PatientStore.constructor` | src/contexts/PatientsContext.tsx:92 | The store starts with the seed patients. |
| `Patients.PatientStore.UpdatePatient` | src/contexts/PatientsContext.tsx:94-100 | The new list is `UpdateById` of the old list. |
| `Patients.PatientStore.AddPatient` | src/contexts/PatientsContext.tsx:102-104 | The new list is the old list plus the patient at the end. |
| `Patients.PatientStore.Get` | src/contexts/PatientsContext.tsx:106-108 | The result is a current patient with the id, or none iff no current patient has it. |
| `Riders.UpdateById` | src/contexts/RiderContext.tsx:50-56 | Length and positions are kept, and other ids are unchanged. A matching rider becomes the old rider overwritten by the supplied fields. |
| `Riders.GetRider` | src/contexts/RiderContext.tsx:62-64 | The result is none iff no rider has the id. Otherwise it is the first rider with that id. |
| `Riders.DuplicateAddIsShadowed` | src/contexts/RiderContext.tsx:58-64 | Adding a rider whose id is already taken leaves lookup on the earlier rider, so the new one cannot be found by its id. The append itself is `Riders.RiderStore.AddRider`. |
| `Riders.GetAfterFreshAdd` | src/contexts/RiderContext.tsx:58-64 | Adding a rider with a fresh id makes lookup of that id return it. |
| `Riders.UpdateKeepsIds` | src/contexts/RiderContext.tsx:50-56 | An update that does not supply `id` keeps every rider's id. |
| `Riders.InitialRidersDistinct` | src/contexts/RiderContext.tsx:26-45 | The two seed riders have distinct ids, and lookup of "2" finds the second one. Their statuses are within `active`, `inactive`, `busy` by type. |
| `Riders.RiderStore.constructor` | src/contexts/RiderContext.tsx:48 | The store starts with the seed riders. |
| `Riders.GetAfterUpdate` | src/contexts/RiderContext.tsx:50-64 | After an update that keeps the id, lookup gives the rider found before, merged with the patch. |
| `Riders.RiderStore.UpdateRider` | src/contexts/RiderContext.tsx:50-56 | The new list is `UpdateById` of the old list. |
| `Riders.RiderStore.AddRider` | src/contexts/RiderContext.tsx:58-60 | The new list is the old list plus the rider at the end, with no duplicate check. |
| `Riders.RiderStore.Get` | src/contexts/RiderContext.tsx:62-64 | The result is a current rider with the id, or none iff no current rider has it. |
| `Lists.Filter` | src/contexts/DeliveryContext.tsx:79 | The result is no longer than the input and holds exactly the elements that pass the test. |
| `Lists.Count` | src/app/api/admin/overview/route.ts:97-101 | `filter(..).length`: the number of elements that pass, never more than the length. `CountAppend` and `CountDisjoint3` give how it grows and how disjoint counts add up. |
| `Lists.FilterAppend` | src/contexts/DeliveryContext.tsx:79 | Filtering a concatenation is the concatenation of the filtered parts, so filtering never reorders. |
| `Lists.Find` | src/contexts/PatientsContext.tsx:107 | The result is none iff no element passes the test. Otherwise it is the element at the first passing index. |
| `Lists.MapWhere` | src/contexts/RiderContext.tsx:51-55 | The `map` with a conditional that all three stores use to update. Length is kept, each passing element is replaced by its image, and the rest stay in place. This contract is the comprehension itself; what it means for lookup is in `Lists.FindAfterMapWhere` and `Deliveries.UpdateKeepsPatientCounts`. |
| `Lists.FindAfterMapWhere` | src/contexts/PatientsContext.tsx:94-108 | If the replacement keeps matching elements matching, `find` after the update gives the image of what `find` gave before. If nothing matched before, nothing matches after. |
| `Lists.FindAppend` | src/contexts/RiderContext.tsx:63 | Appending changes `find` only when nothing earlier matched. |
| `Lists.CountDisjoint3` | src/app/api/admin/overview/route.ts:97-99 | Counts under three pairwise exclusive tests add up to at most the length. |
| `PackageSchema.RequiredText` | src/lib/validations/package.schema.ts:4-6 | A field is accepted iff it is a non-empty string, and the string is kept. An empty string reports the field's own message under the field's path. |
| `PackageSchema.OptionalText` | src/lib/validations/package.schema.ts:7 | An absent field or any string is accepted. Only a non-string value is rejected. |
| `PackageSchema.ParseDrugCycle` | src/lib/validations/package.schema.ts:3-8 | Valid iff `cycleLength`, `startDate` and `endDate` are non-empty strings and `notes` is absent or a string. The parsed value carries exactly those fields. A failure reports one to four issues, and each one names a field that failed: a required field that is not a non-empty string, or `notes` holding a non-string. |
| `PackageSchema.ParseRiderAssignment` | src/lib/validations/package.schema.ts:10-15 | Valid iff `riderId`, `deliveryDate` and `deliveryTime` are non-empty strings and `specialInstructions` is absent or a string. A failure reports one to four issues, and each one names a field that failed. |
| `PackageSchema.EmptyDrugCycleFieldsReported` | src/lib/validations/package.schema.ts:4-6 | Each empty required drug-cycle field is reported with its own message. |
| `PackageSchema.EmptyRiderAssignmentFieldsReported` | src/lib/validations/package.schema.ts:11-13 | An empty rider id reports "Rider selection is required". Empty delivery date and time report their own messages. |
| `PackageSchema.OnlyLengthIsChecked` | src/lib/validations/package.schema.ts:4-6 | These inputs are all accepted: cycle length "0", an end date before the start date, whitespace-only values, and absent notes. |
| `AssignRoute.AnyText` | src/app/api/packages/assign/route.ts:6-7 | Any string is accepted, including the empty one. Anything else is rejected. |
| `AssignRoute.Under` | src/app/api/packages/assign/route.ts:8-9 | Nested issues keep their number and messages, and their paths are prefixed with the nested key. This contract restates the comprehension; that the issues reach the response is `AssignRoute.DrugCycleIssuesReported`. |
| `AssignRoute.ParseAssignPackage` | src/app/api/packages/assign/route.ts:5-10 | Accepted iff both ids are strings and both nested objects pass their schemas. The accepted value is made of exactly those parsed parts. A rejection carries at least one issue. Every issue is about a failing part (`Blames`): an id that is not a string, a nested part that is missing or not an object, or an issue of a nested schema that rejects its part, under that part's key. |
| `AssignRoute.Post` | src/app/api/packages/assign/route.ts:12-36 | Status 200 iff the body is an object that parses, and then the reply is the success message with the validated data. Otherwise it is 400. A body that cannot be read carries the read error. A body that is not an object carries one "Expected object" issue. An object that fails validation carries exactly the issues of `ParseAssignPackage`. |
| `AssignRoute.EmptyIdsAccepted` | src/app/api/packages/assign/route.ts:6-7 | Empty patient and package ids are accepted. |
| `AssignRoute.DrugCycleIssuesReported` | src/app/api/packages/assign/route.ts:8-17 | A failing drug cycle gives 400, and each of its issues appears under the `drugCycle` path. |
| `AssignRoute.RiderAssignmentIssuesReported` | src/app/api/packages/assign/route.ts:9 | A failing rider assignment makes the reply 400. Every one of its issues is in the reply under the `riderAssignment` key, whatever else fails. |
| `AssignRoute.TopLevelIssuesReported` | src/app/api/packages/assign/route.ts:5-10 | A missing `patientId` or `packageId` is reported at its own key with "Required", and a non-string one with "Expected string". A nested part that is missing is reported at its key with "Required", and one that is not an object with "Expected object". |
| `AdminOverview.ComputeStats` | src/app/api/admin/overview/route.ts:93-102 | The three totals are the list lengths. Completed, pending and in-progress together are at most the total. Paid count and active riders are bounded by their totals. What each counter counts is fixed by `StatsAfterNewDelivery` and `StatsAfterNewRider`. |
| `AdminOverview.StatsAfterNewDelivery` | src/app/api/admin/overview/route.ts:94-101 | One more delivery raises the total by one. Each status or payment counter rises by one iff it matches. Active riders stay unchanged. |
| `AdminOverview.StatsAfterNewRider` | src/app/api/admin/overview/route.ts:96-101 | Appending a rider raises the rider total by one. It raises `activeRiders` by one iff the rider's status is exactly `active`. Every other counter stays the same. |
| `AdminOverview.Get` | src/app/api/admin/overview/route.ts:6-125 | No session or no user gives 401. A signed-in non-`ADMIN` gives 403 with "Not authorized". 200 iff an admin's fetch succeeded. Its stats are `ComputeStats` of the fetched lists, and it echoes the three lists unchanged. A session lookup that throws gives 500 with its message as details. So does an admin's fetch that fails. |
| `AdminOverview.GuardsIgnoreData` | src/app/api/admin/overview/route.ts:11-21 | Without a signed-in admin, the response does not depend on the database. |
| `DashboardRoute.SuccessRate` | src/app/api/dashboard/route.ts:75-77 | The rate lies between 0 and 100. It is 0 when the total is 0, and 100 when everything counted is completed. Otherwise rate × total = 100 × completed. |
| `DashboardRoute.ComputeStats` | src/app/api/dashboard/route.ts:74-87 | The total is pending + in progress + completed, and it is at most the number of deliveries. The rate is `SuccessRate` of completed over total. The patient and rider counts are passed through. What each counter counts is fixed by `StatsAfterNewStatus`. |
| `DashboardRoute.StatsAfterNewStatus` | src/app/api/dashboard/route.ts:35-43 | No deliveries give a total of 0. Appending a status raises the `PENDING`, `IN_PROGRESS` or `COMPLETED` counter by one iff the status is exactly that string, and leaves the other two alone. The total rises by one iff the status is one of the three. |
| `DashboardRoute.OtherStatusesExcluded` | src/app/api/dashboard/route.ts:35-43 | A delivery with any other status changes no counter and no rate. |
| `DashboardRoute.AllCompletedIsFullRate` | src/app/api/dashboard/route.ts:74-77 | If every delivery is `COMPLETED`, the rate is 100, or 0 when there are none. |
| `DashboardRoute.HalfCompleted` | src/app/api/dashboard/route.ts:74-77 | Two completed and two pending deliveries give 50. |
| `DashboardRoute.Get` | src/app/api/dashboard/route.ts:5-105 | 401 iff the `auth` cookie is missing or empty. 200 iff the cookie decodes and the database answers, with `ComputeStats` and the user looked up by email. A cookie that does not decode, or a database that fails, gives 500 with the fetch-failed message. |
| `Middleware.Decide` | src/middleware.ts:7-28 | The request passes iff the route is public exactly when there is no cookie. A redirect with a cookie goes to `/dashboard`. A redirect without one goes to `/login` with `from` = pathname. |
| `Middleware.OnlyPresenceMatters` | src/middleware.ts:8-21 | Two cookie values give the same decision. |
| `Middleware.NoRedirectLoop` | src/middleware.ts:12-25 | The target of any redirect passes the same visitor through. |
| `Middleware.LoginNeverRedirectsToLogin` | src/middleware.ts:12-18 | A request for `/login` is never redirected to `/login`. |
| `Middleware.TrailingSlashIsProtected` | src/middleware.ts:5-25 | `/login/` is not public, so without a cookie it redirects to `/login` with `from=/login/`. |
| `Navigation.PrefixExamples` | src/components/layout/DashboardLayout.tsx:98 | `/dashboard` is not active on `/dashboard/x`. `/admin` is active on `/administration`. |
| `Navigation.IsActive` | src/components/layout/DashboardLayout.tsx:94-99 | An active link is always a prefix of the current path. The overview link is active iff the path is exactly `/dashboard`. |
| `Navigation.NoHrefIsPrefixOfAnother` | src/components/layout/DashboardLayout.tsx:14-70 | No href in the table is a prefix of another. |
| `Navigation.AtMostOneActive` | src/components/layout/DashboardLayout.tsx:14-99 | At most one table entry is active for any pathname. |
| `Navigation.RootActivatesNothing` | src/components/layout/DashboardLayout.tsx:94-99 | The pathname `/` activates no entry. |
| `AuthUtils.GetRedirectUrl` | src/lib/authUtils.ts:28-30 | The result is one of the two dashboards. It is `/admin/dashboard` iff the role is exactly `ADMIN`. |
| `AuthUtils.OtherRolesLeadHome` | src/lib/authUtils.ts:28-29 | `admin`, the empty role and an omitted role (default `USER`) give `/dashboard`. |
| `AuthUtils.IsAuthenticated` | src/lib/authUtils.ts:4-14 | True iff a token is obtained. No token or an error gives false. |
| `AuthUtils.IsAdmin` | src/lib/authUtils.ts:16-26 | True iff a token is obtained with role exactly `ADMIN`, which implies it is authenticated. |
| `AuthUtils.AdminTokenLeadsToAdminHome` | src/lib/authUtils.ts:16-30 | A token's role passes `isAdmin` iff it leads to the admin dashboard. |
| `RegisterRoute.FirstMissingField` | src/app/api/auth/register/route.ts:10-18 | None iff all six fields are truthy. Otherwise the result names the first falsy field in the fixed order. |
| `RegisterRoute.FirstMissingIsUnique` | src/app/api/auth/register/route.ts:10-18 | The first missing field is unique. |
| `RegisterRoute.EmptyStringIsMissing` | src/app/api/auth/register/route.ts:12 | An empty first name is the first missing field. |
| `RegisterRoute.Post` | src/app/api/auth/register/route.ts:5-42 | Creation is attempted iff all six fields are present. A missing field gives 400 "<field> is required" for the first one. Success gives 201 with email, first and last name only. A creation error gives 400 with its message. |

## Left out

- QR code generation (`generateQRCode`) and scanning: these are calls into
  image and camera libraries.
- Reading the clock, cookies, sessions and tokens, JSON parsing, database
  queries and `createUser`: their outcomes are parameters of the modelled
  functions.
- The user dashboard's `recentDeliveries`, `topRiders` and `recentPatients`
  queries (ordering and `take: 5`) and the extra columns the admin overview
  selects: the responses only carry them for display.
- The two-decimal rounding of the dashboard success rate: it is floating-point
  formatting. The rate is an exact real.
- The middleware `matcher` pattern: it is framework configuration.
- All rendering and local UI state of the layout (menus, loading screen,
  logout): presentation only.
- `DeliveryStatus.Tracking`: a deadline is a number of milliseconds or `None`.
  Text that is not a date is folded into `None`, because the source then never
  reports failure either.
- `PackageSchema.RequiredText`: the schema library's wording for a wrong type
  ("Expected string, received …") is shortened to "Expected string". The error
  text the route returns is the library's rendering of the issue list, and the
  model returns the list itself.
- `AssignRoute.ExpectedObjectMessage`: the same shortening applies to a body or a
  nested part that is not an object. The library's "Expected object, received …"
  is modelled as "Expected object".
- `Deliveries.Merge`: a patch key that is present but `undefined` (which the
  spread copies over the old value) is not represented. A key is either
  supplied with a value or absent. The same holds for `Patients.Merge` and
  `Riders.Merge`.
- React's batching of state updates, and a lookup reading the list of the
  previous render: the store methods take effect at once.
- `RegisterRoute.Post`: a JSON body that is not an object (`null`, a number, an
  array) is not represented. `NaN` is not represented among the falsy values.
