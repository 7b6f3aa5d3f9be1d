/** The package-assignment endpoint: it validates the request body against the
    composed assignment schema and echoes the validated data back. Nothing is
    stored, so the handler is a function of the request alone. */
module AssignRoute {
  import opened Wrappers
  import opened Http
  import opened PackageSchema

  /** A nested object key as an object schema sees it. */
  datatype Part<T> = Missing | NotAnObject | Present(fields: T)

  datatype AssignInput = AssignInput(
    patientId: Field,
    packageId: Field,
    drugCycle: Part<DrugCycleInput>,
    riderAssignment: Part<RiderAssignmentInput>)

  datatype AssignPackage = AssignPackage(
    patientId: string,
    packageId: string,
    drugCycle: DrugCycle,
    riderAssignment: RiderAssignment)

  /** The request body: text that is not JSON (the reading step throws with
      `reason`), JSON that is not an object, or an object. */
  datatype Body = Unparsable(reason: string) | NotAnObjectBody | Object(input: AssignInput)

  const ExpectedObjectMessage := "Expected object"
  const SuccessMessage := "Package assigned successfully"

  /** `z.string()` with no length bound: any string passes, the empty one too. */
  function AnyText(key: string, f: Field): (r: Result<string, Issue>)
    ensures r.Ok? <==> f.Text?
  {
    match f
    case Text(s) => Ok(s)
    case Absent => Err(Issue([key], RequiredMessage))
    case NonText => Err(Issue([key], ExpectedStringMessage))
  }

  /** The issues of a nested object, their paths placed under `key`. */
  function Under(key: string, issues: seq<Issue>): (r: seq<Issue>)
    ensures |r| == |issues|
    ensures forall i :: 0 <= i < |r| ==> r[i].path == [key] + issues[i].path && r[i].message == issues[i].message
  {
    seq(|issues|, i requires 0 <= i < |issues| => Issue([key] + issues[i].path, issues[i].message))
  }

  /** An object-valued key checked with the schema `parse`. */
  function NestedIssues<T, U>(key: string, p: Part<T>, parse: T -> Result<U, seq<Issue>>): seq<Issue> {
    match p
    case Missing => [Issue([key], RequiredMessage)]
    case NotAnObject => [Issue([key], ExpectedObjectMessage)]
    case Present(x) => if parse(x).Err? then Under(key, parse(x).error) else []
  }

  /** Every issue of a nested object list comes from an issue of the nested
      schema, placed under `key`. */
  lemma UnderComesFromEach(key: string, issues: seq<Issue>)
    ensures forall i :: i in Under(key, issues) ==> exists j :: j in issues && i == Issue([key] + j.path, j.message)
  {
    var nested := Under(key, issues);
    forall i | i in nested
      ensures exists j :: j in issues && i == Issue([key] + j.path, j.message)
    {
      var k :| 0 <= k < |nested| && nested[k] == i;
      assert issues[k] in issues;
    }
  }

  /** Every issue of a nested part is either about the part itself, when it is
      missing or not an object, or an issue of its schema placed under `key`. */
  lemma NestedIssuesComeFromPart<T, U>(key: string, p: Part<T>, parse: T -> Result<U, seq<Issue>>)
    ensures forall i :: i in NestedIssues(key, p, parse) ==>
              (i.path == [key] && !p.Present?)
              || (p.Present? && parse(p.fields).Err? && exists j :: j in parse(p.fields).error && i == Issue([key] + j.path, j.message))
  {
    if p.Present? && parse(p.fields).Err? {
      UnderComesFromEach(key, parse(p.fields).error);
    }
  }

  /** The issue `i` is about a part of `x` that fails: an id that is not a
      string, a nested part that is missing or not an object, or an issue of a
      nested schema that rejects its part, placed under the part's key. */
  predicate Blames(x: AssignInput, i: Issue) {
    (i.path == ["patientId"] && !x.patientId.Text?)
    || (i.path == ["packageId"] && !x.packageId.Text?)
    || (i.path == ["drugCycle"] && !x.drugCycle.Present?)
    || (i.path == ["riderAssignment"] && !x.riderAssignment.Present?)
    || (x.drugCycle.Present? && ParseDrugCycle(x.drugCycle.fields).Err?
        && exists j :: j in ParseDrugCycle(x.drugCycle.fields).error && i == Issue(["drugCycle"] + j.path, j.message))
    || (x.riderAssignment.Present? && ParseRiderAssignment(x.riderAssignment.fields).Err?
        && exists j :: j in ParseRiderAssignment(x.riderAssignment.fields).error && i == Issue(["riderAssignment"] + j.path, j.message))
  }

  /** `assignPackageSchema.parse` on an object body: accepted exactly when both
      ids are strings (of any length) and both nested objects pass their own
      schemas; the accepted value carries those fields and nothing else. */
  function ParseAssignPackage(x: AssignInput): (r: Result<AssignPackage, seq<Issue>>)
    ensures r.Ok? <==> x.patientId.Text? && x.packageId.Text?
                       && x.drugCycle.Present? && ParseDrugCycle(x.drugCycle.fields).Ok?
                       && x.riderAssignment.Present? && ParseRiderAssignment(x.riderAssignment.fields).Ok?
    ensures r.Ok? ==> r.value == AssignPackage(x.patientId.text, x.packageId.text,
                                               ParseDrugCycle(x.drugCycle.fields).value,
                                               ParseRiderAssignment(x.riderAssignment.fields).value)
    ensures r.Err? ==> r.error != []
    ensures r.Err? ==> forall i :: i in r.error ==> Blames(x, i)
  {
    var p := AnyText("patientId", x.patientId);
    var k := AnyText("packageId", x.packageId);
    var d := if x.drugCycle.Present? then Some(ParseDrugCycle(x.drugCycle.fields)) else None;
    var a := if x.riderAssignment.Present? then Some(ParseRiderAssignment(x.riderAssignment.fields)) else None;
    if p.Ok? && k.Ok? && d.Some? && d.value.Ok? && a.Some? && a.value.Ok? then
      Ok(AssignPackage(p.value, k.value, d.value.value, a.value.value))
    else
      NestedIssuesComeFromPart("drugCycle", x.drugCycle, ParseDrugCycle);
      NestedIssuesComeFromPart("riderAssignment", x.riderAssignment, ParseRiderAssignment);
      Err(IssuesOf(p) + IssuesOf(k)
          + NestedIssues("drugCycle", x.drugCycle, ParseDrugCycle)
          + NestedIssues("riderAssignment", x.riderAssignment, ParseRiderAssignment))
  }

  /** What the failure response's `error` carries: the reading step's message,
      or the schema's issues. */
  datatype Failure = ReadFailed(message: string) | Invalid(issues: seq<Issue>)

  datatype Reply = Assigned(message: string, data: AssignPackage) | Rejected(error: Failure)

  /** `POST /api/packages/assign`. */
  function Post(body: Body): (r: Response<Reply>)
    ensures r.status == OK <==> body.Object? && ParseAssignPackage(body.input).Ok?
    ensures r.status == OK ==> r.body == Assigned(SuccessMessage, ParseAssignPackage(body.input).value)
    ensures r.status != OK ==> r.status == BadRequest && r.body.Rejected?
    ensures body.Unparsable? ==> r == Response(BadRequest, Rejected(ReadFailed(body.reason)))
    ensures body.NotAnObjectBody? ==> r == Response(BadRequest, Rejected(Invalid([Issue([], ExpectedObjectMessage)])))
    ensures body.Object? && ParseAssignPackage(body.input).Err? ==>
              r == Response(BadRequest, Rejected(Invalid(ParseAssignPackage(body.input).error)))
  {
    match body
    case Unparsable(reason) => Response(BadRequest, Rejected(ReadFailed(reason)))
    case NotAnObjectBody => Response(BadRequest, Rejected(Invalid([Issue([], ExpectedObjectMessage)])))
    case Object(x) =>
      match ParseAssignPackage(x)
      case Ok(data) => Response(OK, Assigned(SuccessMessage, data))
      case Err(issues) => Response(BadRequest, Rejected(Invalid(issues)))
  }

  /** Empty package and patient ids are accepted, since the id schemas set no
      minimum length. */
  lemma EmptyIdsAccepted(d: DrugCycleInput, a: RiderAssignmentInput)
    requires ParseDrugCycle(d).Ok? && ParseRiderAssignment(a).Ok?
    ensures Post(Object(AssignInput(Text(""), Text(""), Present(d), Present(a)))).status == OK
  {
  }

  /** Every issue of a nested object appears in the list placed under its key. */
  lemma UnderKeepsEach(key: string, issues: seq<Issue>)
    ensures forall i :: i in issues ==> Issue([key] + i.path, i.message) in Under(key, issues)
  {
    var nested := Under(key, issues);
    forall i | i in issues
      ensures Issue([key] + i.path, i.message) in nested
    {
      var k :| 0 <= k < |issues| && issues[k] == i;
      assert nested[k] == Issue([key] + i.path, i.message);
    }
  }

  /** A failing drug cycle reaches the response with its issues placed under
      the `drugCycle` key. */
  lemma DrugCycleIssuesReported(x: AssignInput)
    requires x.drugCycle.Present? && ParseDrugCycle(x.drugCycle.fields).Err?
    ensures Post(Object(x)).status == BadRequest
    ensures forall i :: i in ParseDrugCycle(x.drugCycle.fields).error ==>
              Issue(["drugCycle"] + i.path, i.message) in Post(Object(x)).body.error.issues
  {
    UnderKeepsEach("drugCycle", ParseDrugCycle(x.drugCycle.fields).error);
  }

  /** A failing rider assignment reaches the response with its issues placed
      under the `riderAssignment` key, whatever else fails beside it. */
  lemma RiderAssignmentIssuesReported(x: AssignInput)
    requires x.riderAssignment.Present? && ParseRiderAssignment(x.riderAssignment.fields).Err?
    ensures Post(Object(x)).status == BadRequest
    ensures forall i :: i in ParseRiderAssignment(x.riderAssignment.fields).error ==>
              Issue(["riderAssignment"] + i.path, i.message) in Post(Object(x)).body.error.issues
  {
    UnderKeepsEach("riderAssignment", ParseRiderAssignment(x.riderAssignment.fields).error);
  }

  /** The issue an id field reports when it is not a string. */
  function IdIssue(key: string, f: Field): Issue {
    Issue([key], if f.Absent? then RequiredMessage else ExpectedStringMessage)
  }

  /** A missing or non-string id is reported at its own key: "Required" when
      absent, "Expected string" otherwise; so is a missing or non-object nested
      part. */
  lemma TopLevelIssuesReported(x: AssignInput)
    ensures !x.patientId.Text? ==> IdIssue("patientId", x.patientId) in Post(Object(x)).body.error.issues
    ensures !x.packageId.Text? ==> IdIssue("packageId", x.packageId) in Post(Object(x)).body.error.issues
    ensures x.drugCycle.Missing? ==> Issue(["drugCycle"], RequiredMessage) in Post(Object(x)).body.error.issues
    ensures x.drugCycle.NotAnObject? ==> Issue(["drugCycle"], ExpectedObjectMessage) in Post(Object(x)).body.error.issues
    ensures x.riderAssignment.Missing? ==> Issue(["riderAssignment"], RequiredMessage) in Post(Object(x)).body.error.issues
    ensures x.riderAssignment.NotAnObject? ==> Issue(["riderAssignment"], ExpectedObjectMessage) in Post(Object(x)).body.error.issues
  {
  }
}
