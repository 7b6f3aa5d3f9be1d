/** The role helpers: where to send a user after signing in, and the two
    token tests. Reading the token is outside the model; its outcome is an
    input. */
module AuthUtils {
  import opened Wrappers

  const AdminRole := "ADMIN"
  const DefaultRole := "USER"
  const AdminHome := "/admin/dashboard"
  const UserHome := "/dashboard"

  /** `getRedirectUrl(role)`; `None` is a call without the argument, which takes
      the default role "USER". Only the exact role "ADMIN" leads to the admin
      dashboard; every other role, "admin" and "" included, to the user one. */
  function GetRedirectUrl(role: Option<string>): (url: string)
    ensures url == AdminHome || url == UserHome
    ensures url == AdminHome <==> role == Some(AdminRole)
  {
    var r := role.GetOr(DefaultRole);
    if r == AdminRole then AdminHome else UserHome
  }

  /** Lowercase "admin", the empty role and the default role all lead home. */
  lemma OtherRolesLeadHome()
    ensures GetRedirectUrl(Some("admin")) == UserHome
    ensures GetRedirectUrl(Some("")) == UserHome
    ensures GetRedirectUrl(None) == UserHome
  {
  }

  /** The outcome of reading the session token: it throws, there is none, or
      there is one, carrying a role or not. */
  datatype TokenLookup = Threw | NoToken | Token(role: Option<string>)

  /** `isAuthenticated`: a token was obtained; a failed read counts as no. */
  function IsAuthenticated(t: TokenLookup): (b: bool)
    ensures b <==> t.Token?
  {
    match t
    case Threw => false
    case NoToken => false
    case Token(_) => true
  }

  /** `isAdmin`: a token was obtained and its role is exactly "ADMIN"; no token
      or a failed read counts as no. */
  function IsAdmin(t: TokenLookup): (b: bool)
    ensures b <==> t == Token(Some(AdminRole))
    ensures b ==> IsAuthenticated(t)
  {
    match t
    case Threw => false
    case NoToken => false
    case Token(role) => role == Some(AdminRole)
  }

  /** An administrator's token sends them to the admin dashboard, any other
      token to the user dashboard. */
  lemma AdminTokenLeadsToAdminHome(role: Option<string>)
    ensures IsAdmin(Token(role)) <==> GetRedirectUrl(role) == AdminHome
  {
  }
}
