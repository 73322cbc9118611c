/** requireAuth (reference-files/lib/api-auth.ts): the session user must exist, rank at least
    the required role, and have a tenant. */
module ApiAuth {
  import opened Common

  datatype Role = Owner | Admin | Analyst | Viewer

  /** ROLE_HIERARCHY. */
  function Rank(r: Role): (n: nat)
    ensures 1 <= n <= 4
  {
    match r
    case Owner => 4
    case Admin => 3
    case Analyst => 2
    case Viewer => 1
  }

  const DEFAULT_MIN_ROLE := Viewer

  /** The session's user; a `tenantId` of "" stands for a missing one. */
  datatype SessionUser = SessionUser(id: string, role: Role, tenantId: string)

  datatype AuthResult =
    | Authorized(user: SessionUser, tenantId: string)
    | Rejected(status: int, error: string)

  const UNAUTHORIZED := "Unauthorized"
  const FORBIDDEN := "Forbidden"
  const NO_TENANT := "No tenant assigned. Contact your administrator."

  /** The checks in order: a user, a sufficient rank, a tenant. */
  function RequireAuth(session: Option<SessionUser>, minRole: Role): (r: AuthResult)
    ensures session.None? ==> r == Rejected(401, UNAUTHORIZED)
    ensures session.Some? && Rank(session.value.role) < Rank(minRole) ==> r == Rejected(403, FORBIDDEN)
    ensures session.Some? && Rank(session.value.role) >= Rank(minRole) && session.value.tenantId == "" ==>
      r == Rejected(403, NO_TENANT)
    ensures r.Authorized? <==>
      session.Some? && Rank(session.value.role) >= Rank(minRole) && session.value.tenantId != ""
    ensures r.Authorized? ==> r.user == session.value && r.tenantId == session.value.tenantId
  {
    if session.None? then Rejected(401, UNAUTHORIZED)
    else if Rank(session.value.role) < Rank(minRole) then Rejected(403, FORBIDDEN)
    else if session.value.tenantId == "" then Rejected(403, NO_TENANT)
    else Authorized(session.value, session.value.tenantId)
  }

  /** The hierarchy is a strict order: OWNER over ADMIN over ANALYST over VIEWER, and no two
      roles share a rank. */
  lemma RankStrict(a: Role, b: Role)
    ensures Rank(Owner) > Rank(Admin) > Rank(Analyst) > Rank(Viewer)
    ensures Rank(a) == Rank(b) <==> a == b
  {
  }

  /** Being authorised for a role authorises for every lower one, with the same user and
      tenant. */
  lemma AuthorizedForLowerRoles(session: Option<SessionUser>, high: Role, low: Role)
    requires Rank(low) <= Rank(high)
    ensures RequireAuth(session, high).Authorized? ==> RequireAuth(session, low) == RequireAuth(session, high)
  {
  }

  /** An OWNER with a tenant passes every check; the default minimum lets any user with a
      tenant through. */
  lemma OwnerAndDefault(user: SessionUser, minRole: Role)
    requires user.tenantId != ""
    ensures user.role == Owner ==> RequireAuth(Some(user), minRole) == Authorized(user, user.tenantId)
    ensures RequireAuth(Some(user), DEFAULT_MIN_ROLE) == Authorized(user, user.tenantId)
  {
  }
}
