/** The two form schemas of the package-assignment wizard: a drug cycle and a
    rider assignment. Each required field is a string of length at least one;
    each optional field is absent or a string. Like the schema library, a parse
    reports one issue per failing field, in the order the fields are declared. */
module PackageSchema {
  import opened Wrappers

  /** One key of a JSON object as a string schema sees it. */
  datatype Field = Absent | Text(text: string) | NonText

  /** One validation problem: the path of the field and its message. */
  datatype Issue = Issue(path: seq<string>, message: string)

  /** The message for a required key that is missing altogether. */
  const RequiredMessage := "Required"
  /** The message for a key that holds something other than a string. */
  const ExpectedStringMessage := "Expected string"

  const CycleLengthMessage := "Cycle length is required"
  const StartDateMessage := "Start date is required"
  const EndDateMessage := "End date is required"
  const RiderMessage := "Rider selection is required"
  const DeliveryDateMessage := "Delivery date is required"
  const DeliveryTimeMessage := "Delivery time is required"

  /** `z.string().min(1, message)` on the key `key`. */
  function RequiredText(key: string, f: Field, message: string): (r: Result<string, Issue>)
    ensures r.Ok? <==> f.Text? && f.text != ""
    ensures r.Ok? ==> r.value == f.text
    ensures r.Err? ==> r.error.path == [key]
    ensures f == Text("") ==> r == Err(Issue([key], message))
  {
    match f
    case Absent => Err(Issue([key], RequiredMessage))
    case NonText => Err(Issue([key], ExpectedStringMessage))
    case Text(s) => if |s| < 1 then Err(Issue([key], message)) else Ok(s)
  }

  /** `z.string().optional()` on the key `key`: any string, or nothing. */
  function OptionalText(key: string, f: Field): (r: Result<Option<string>, Issue>)
    ensures r.Ok? <==> !f.NonText?
    ensures r.Ok? ==> r.value == (if f.Text? then Some(f.text) else None)
  {
    match f
    case Absent => Ok(None)
    case NonText => Err(Issue([key], ExpectedStringMessage))
    case Text(s) => Ok(Some(s))
  }

  /** The issue a field check reported, if any. */
  function IssuesOf<T>(r: Result<T, Issue>): seq<Issue> {
    if r.Err? then [r.error] else []
  }

  /** A field that a required string schema accepts. */
  predicate Filled(f: Field) {
    f.Text? && |f.text| > 0
  }

  datatype DrugCycleInput = DrugCycleInput(cycleLength: Field, startDate: Field, endDate: Field, notes: Field)
  datatype DrugCycle = DrugCycle(cycleLength: string, startDate: string, endDate: string, notes: Option<string>)

  /** `drugCycleSchema.parse`. */
  function ParseDrugCycle(x: DrugCycleInput): (r: Result<DrugCycle, seq<Issue>>)
    ensures r.Ok? <==> Filled(x.cycleLength) && Filled(x.startDate) && Filled(x.endDate) && !x.notes.NonText?
    ensures r.Ok? ==> r.value.cycleLength == x.cycleLength.text && r.value.startDate == x.startDate.text
                      && r.value.endDate == x.endDate.text && r.value.notes == (if x.notes.Text? then Some(x.notes.text) else None)
    ensures r.Err? ==> 1 <= |r.error| <= 4
    ensures r.Err? ==> forall i :: i in r.error ==>
              (i.path == ["cycleLength"] && !Filled(x.cycleLength)) || (i.path == ["startDate"] && !Filled(x.startDate))
              || (i.path == ["endDate"] && !Filled(x.endDate)) || (i.path == ["notes"] && x.notes.NonText?)
  {
    var c := RequiredText("cycleLength", x.cycleLength, CycleLengthMessage);
    var s := RequiredText("startDate", x.startDate, StartDateMessage);
    var e := RequiredText("endDate", x.endDate, EndDateMessage);
    var n := OptionalText("notes", x.notes);
    if c.Ok? && s.Ok? && e.Ok? && n.Ok? then Ok(DrugCycle(c.value, s.value, e.value, n.value))
    else Err(IssuesOf(c) + IssuesOf(s) + IssuesOf(e) + IssuesOf(n))
  }

  datatype RiderAssignmentInput = RiderAssignmentInput(riderId: Field, deliveryDate: Field, deliveryTime: Field, specialInstructions: Field)
  datatype RiderAssignment = RiderAssignment(riderId: string, deliveryDate: string, deliveryTime: string, specialInstructions: Option<string>)

  /** `riderAssignmentSchema.parse`. */
  function ParseRiderAssignment(x: RiderAssignmentInput): (r: Result<RiderAssignment, seq<Issue>>)
    ensures r.Ok? <==> Filled(x.riderId) && Filled(x.deliveryDate) && Filled(x.deliveryTime) && !x.specialInstructions.NonText?
    ensures r.Ok? ==> r.value.riderId == x.riderId.text && r.value.deliveryDate == x.deliveryDate.text
                      && r.value.deliveryTime == x.deliveryTime.text
                      && r.value.specialInstructions == (if x.specialInstructions.Text? then Some(x.specialInstructions.text) else None)
    ensures r.Err? ==> 1 <= |r.error| <= 4
    ensures r.Err? ==> forall i :: i in r.error ==>
              (i.path == ["riderId"] && !Filled(x.riderId)) || (i.path == ["deliveryDate"] && !Filled(x.deliveryDate))
              || (i.path == ["deliveryTime"] && !Filled(x.deliveryTime))
              || (i.path == ["specialInstructions"] && x.specialInstructions.NonText?)
  {
    var i := RequiredText("riderId", x.riderId, RiderMessage);
    var d := RequiredText("deliveryDate", x.deliveryDate, DeliveryDateMessage);
    var t := RequiredText("deliveryTime", x.deliveryTime, DeliveryTimeMessage);
    var n := OptionalText("specialInstructions", x.specialInstructions);
    if i.Ok? && d.Ok? && t.Ok? && n.Ok? then Ok(RiderAssignment(i.value, d.value, t.value, n.value))
    else Err(IssuesOf(i) + IssuesOf(d) + IssuesOf(t) + IssuesOf(n))
  }

  /** Each empty required field of a drug cycle is reported with its own message. */
  lemma EmptyDrugCycleFieldsReported(x: DrugCycleInput)
    ensures x.cycleLength == Text("") ==> Issue(["cycleLength"], CycleLengthMessage) in ParseDrugCycle(x).error
    ensures x.startDate == Text("") ==> Issue(["startDate"], StartDateMessage) in ParseDrugCycle(x).error
    ensures x.endDate == Text("") ==> Issue(["endDate"], EndDateMessage) in ParseDrugCycle(x).error
  {
  }

  /** An empty rider selection is reported as "Rider selection is required",
      and so on for the date and the time. */
  lemma EmptyRiderAssignmentFieldsReported(x: RiderAssignmentInput)
    ensures x.riderId == Text("") ==> Issue(["riderId"], RiderMessage) in ParseRiderAssignment(x).error
    ensures x.deliveryDate == Text("") ==> Issue(["deliveryDate"], DeliveryDateMessage) in ParseRiderAssignment(x).error
    ensures x.deliveryTime == Text("") ==> Issue(["deliveryTime"], DeliveryTimeMessage) in ParseRiderAssignment(x).error
  {
  }

  /** Only the length is checked: a cycle length of "0", an end date before the
      start date, whitespace-only text and absent notes all pass. */
  lemma OnlyLengthIsChecked()
    ensures ParseDrugCycle(DrugCycleInput(Text("0"), Text("2025-03-10"), Text("2025-03-01"), Absent)).Ok?
    ensures ParseDrugCycle(DrugCycleInput(Text(" "), Text(" "), Text(" "), Text(""))).Ok?
    ensures ParseRiderAssignment(RiderAssignmentInput(Text(" "), Text("x"), Text("y"), Absent)).Ok?
  {
  }
}
