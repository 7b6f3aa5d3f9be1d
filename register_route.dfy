/** The registration endpoint: it checks six fields in a fixed order and
    stops at the first one that is missing, then creates the user and answers
    with the public part of the new account. Creating the user is outside the
    model; its outcome is an input. */
module RegisterRoute {
  import opened Wrappers
  import opened Http

  /** A JSON value, as far as JavaScript truthiness can tell values apart. */
  datatype JsonValue = Undefined | Null | Bool(b: bool) | Number(n: real) | Str(s: string) | Compound

  /** JavaScript truthiness: `undefined`, `null`, `false`, `0` and `""` are falsy. */
  predicate Truthy(v: JsonValue) {
    match v
    case Undefined => false
    case Null => false
    case Bool(b) => b
    case Number(n) => n != 0.0
    case Str(s) => s != ""
    case Compound => true
  }

  /** The fields checked, in the order they are checked. */
  const RequiredFields: seq<string> := ["firstName", "lastName", "email", "phoneNumber", "licenseNumber", "password"]

  /** `body[key]`: a key the body lacks reads as `undefined`. */
  function Get(body: map<string, JsonValue>, key: string): JsonValue {
    if key in body then body[key] else Undefined
  }

  predicate AllPresent(body: map<string, JsonValue>) {
    forall k :: 0 <= k < |RequiredFields| ==> Truthy(Get(body, RequiredFields[k]))
  }

  /** The `k`th required field is the first one whose value is falsy. */
  predicate IsFirstMissing(body: map<string, JsonValue>, k: int) {
    0 <= k < |RequiredFields| && !Truthy(Get(body, RequiredFields[k]))
    && forall j :: 0 <= j < k ==> Truthy(Get(body, RequiredFields[j]))
  }

  /** There is at most one first missing field. */
  lemma FirstMissingIsUnique(body: map<string, JsonValue>, k1: int, k2: int)
    requires IsFirstMissing(body, k1) && IsFirstMissing(body, k2)
    ensures k1 == k2
  {
  }

  /** The required-field loop: the name of the first field whose value is
      falsy, or `None` when all six are truthy. */
  method FirstMissingField(body: map<string, JsonValue>) returns (missing: Option<string>)
    ensures missing.None? <==> AllPresent(body)
    ensures missing.Some? ==> exists k :: IsFirstMissing(body, k) && missing.value == RequiredFields[k]
  {
    var i := 0;
    while i < |RequiredFields|
      invariant 0 <= i <= |RequiredFields|
      invariant forall j :: 0 <= j < i ==> Truthy(Get(body, RequiredFields[j]))
    {
      if !Truthy(Get(body, RequiredFields[i])) {
        assert IsFirstMissing(body, i);
        return Some(RequiredFields[i]);
      }
      i := i + 1;
    }
    return None;
  }

  /** The request body: text that is not JSON (reading it throws with `reason`),
      or a JSON object. */
  datatype Body = Unreadable(reason: string) | Object(fields: map<string, JsonValue>)

  /** The account `createUser` stores; it includes the password. */
  datatype User = User(email: string, firstName: string, lastName: string, phoneNumber: string, licenseNumber: string, password: string)

  /** The outcome of `createUser`: the new account, or an error with `message`. */
  datatype CreateOutcome = UserCreated(user: User) | CreateFailed(message: string)

  /** The part of the account the response shows; there is no password in it. */
  datatype PublicUser = PublicUser(email: string, firstName: string, lastName: string)

  datatype Reply = Registered(message: string, user: PublicUser) | Rejected(error: string)

  const SuccessMessage := "Registration successful. Please log in to continue."

  /** The error text for the missing field `field`. */
  function RequiredMessage(field: string): string {
    field + " is required"
  }

  /** `POST /api/auth/register`. `attempted` tells whether `createUser` was
      called, which happens exactly when all six fields are present; `create`
      is what that call yields. */
  method Post(body: Body, create: CreateOutcome) returns (r: Response<Reply>, attempted: bool)
    ensures attempted <==> body.Object? && AllPresent(body.fields)
    ensures body.Unreadable? ==> r == Response(BadRequest, Rejected(body.reason))
    ensures body.Object? && !AllPresent(body.fields) ==>
              exists k :: IsFirstMissing(body.fields, k) && r == Response(BadRequest, Rejected(RequiredMessage(RequiredFields[k])))
    ensures attempted && create.UserCreated? ==>
              r == Response(Created, Registered(SuccessMessage, PublicUser(create.user.email, create.user.firstName, create.user.lastName)))
    ensures attempted && create.CreateFailed? ==> r == Response(BadRequest, Rejected(create.message))
    ensures r.status == Created || r.status == BadRequest
  {
    if body.Unreadable? {
      return Response(BadRequest, Rejected(body.reason)), false;
    }
    var missing := FirstMissingField(body.fields);
    if missing.Some? {
      return Response(BadRequest, Rejected(RequiredMessage(missing.value))), false;
    }
    attempted := true;
    match create {
      case UserCreated(user) =>
        r := Response(Created, Registered(SuccessMessage, PublicUser(user.email, user.firstName, user.lastName)));
      case CreateFailed(message) =>
        r := Response(BadRequest, Rejected(message));
    }
  }

  /** An empty string counts as missing: a body whose first name is "" is
      turned away for the first name, whatever the other fields hold. */
  lemma EmptyStringIsMissing(body: map<string, JsonValue>)
    requires Get(body, "firstName") == Str("")
    ensures IsFirstMissing(body, 0)
  {
  }
}
