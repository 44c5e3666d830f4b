/** The authentication dependencies (backend/app/dependencies/auth.py):
    where the token comes from, the chain of 401 checks that turns it into a
    user, the variant that answers `None` instead, and the role check. Token
    decoding and UUID parsing are parameters. */
module Auth {
  import opened Base

  /** The part of a user row these checks read. */
  datatype Principal = Principal(id: Id, role: string, passwordChangedAt: Option<Time>)

  /** The claims of a decoded token; `iat` is in the same unit as `Time`. */
  datatype Claims = Claims(sub: Option<string>, iat: Option<Time>)

  /** What resolving the current user ends in: a user, an `HTTPException`, or
      another exception (which no caller here catches). */
  datatype AuthOutcome = Authenticated(user: Principal) | Denied(error: HttpError) | Crashed(reason: string)

  const NotLoggedIn := HttpError(401, "You are not logged in! Please log in to get access.")
  const BadToken := HttpError(401, "Invalid or expired token")
  const NoSubject := HttpError(401, "Invalid token")
  const UserGone := HttpError(401, "The user belonging to this token no longer exists")
  const PasswordChanged := HttpError(401, "User recently changed password! Please log in again.")
  const Forbidden := HttpError(403, "You do not have permission to perform this action")
  const BadUuid := "badly formed hexadecimal UUID string"

  predicate Truthy(s: Option<string>) {
    s.Some? && s.value != ""
  }

  /** `get_token_from_request`: the Bearer credentials if the header carried
      any, else a non-empty `jwt` cookie, else nothing. `HTTPBearer` with
      `auto_error=False` answers `None` rather than empty credentials, so
      the result is never the empty string. */
  function TokenFromRequest(bearer: Option<string>, cookie: Option<string>): (t: Option<string>)
    requires bearer != Some("")
    ensures t.None? || t.value != ""
    ensures bearer.Some? ==> t == bearer
    ensures bearer.None? && Truthy(cookie) ==> t == cookie
    ensures bearer.None? && !Truthy(cookie) ==> t.None?
  {
    if bearer.Some? then bearer
    else if Truthy(cookie) then cookie
    else None
  }

  /** `get_current_user`. `decode` stands for `decode_token` (`None` when it
      raises), `parseUuid` for `UUID(...)` (`None` when it raises). */
  function CurrentUser(token: Option<string>, decode: string -> Option<Claims>, parseUuid: string -> Option<Id>,
                       users: map<Id, Principal>): (r: AuthOutcome)
    ensures r.Denied? ==> r.error.status == 401
    ensures r.Crashed? ==> r.reason == BadUuid
    ensures r.Authenticated? ==> r.user in users.Values
  {
    if !Truthy(token) then Denied(NotLoggedIn)
    else match decode(token.value)
      case None => Denied(BadToken)
      case Some(claims) =>
        if !Truthy(claims.sub) then Denied(NoSubject)
        else match parseUuid(claims.sub.value)
          case None => Crashed(BadUuid)
          case Some(uid) =>
            if uid !in users then Denied(UserGone)
            else
              var user := users[uid];
              var issuedAt := claims.iat.GetOr(0);
              if user.passwordChangedAt.Some? && user.passwordChangedAt.value > issuedAt then Denied(PasswordChanged)
              else Authenticated(user)
  }

  /** `get_current_user_optional`: `None` for a missing token or an HTTP
      error; any other exception still escapes. */
  function CurrentUserOptional(token: Option<string>, decode: string -> Option<Claims>, parseUuid: string -> Option<Id>,
                               users: map<Id, Principal>): (r: Result<Option<Principal>, string>)
    ensures !Truthy(token) ==> r == Ok(None)
    ensures r.Err? ==> r.error == BadUuid
    ensures r.Ok? && r.value.Some? ==> r.value.value in users.Values
  {
    if !Truthy(token) then Ok(None)
    else match CurrentUser(token, decode, parseUuid, users)
      case Authenticated(u) => Ok(Some(u))
      case Denied(_) => Ok(None)
      case Crashed(reason) => Err(reason)
  }

  /** `require_roles(*allowed_roles)` applied to the resolved user. */
  function RequireRoles(allowedRoles: seq<string>, current: AuthOutcome): (r: AuthOutcome)
    ensures r == current || r == Denied(Forbidden)
    ensures r.Authenticated? ==> r.user.role in allowedRoles
  {
    match current
    case Authenticated(u) => if u.role in allowedRoles then current else Denied(Forbidden)
    case _ => current
  }

  // ---------------------------------------------------------------------------
  // Properties

  /** The checks in their order: each 401 happens exactly when every earlier
      check passed and this one fails. */
  lemma CurrentUserChain(token: Option<string>, decode: string -> Option<Claims>, parseUuid: string -> Option<Id>,
                         users: map<Id, Principal>)
    ensures var r := CurrentUser(token, decode, parseUuid, users);
      && (r == Denied(NotLoggedIn) <==> !Truthy(token))
      && (r == Denied(BadToken) <==> Truthy(token) && decode(token.value).None?)
      && (r == Denied(NoSubject) <==> Truthy(token) && decode(token.value).Some? && !Truthy(decode(token.value).value.sub))
      && (r.Crashed? <==>
            (Truthy(token) && decode(token.value).Some? && Truthy(decode(token.value).value.sub)
             && parseUuid(decode(token.value).value.sub.value).None?))
      && (r == Denied(UserGone) <==>
            (Truthy(token) && decode(token.value).Some? && Truthy(decode(token.value).value.sub)
             && parseUuid(decode(token.value).value.sub.value).Some?
             && parseUuid(decode(token.value).value.sub.value).value !in users))
  {
  }

  /** A user is returned only if it is the token subject's row and its
      password did not change after the token was issued (a missing `iat`
      counts as 0). */
  lemma AuthenticatedMeans(token: Option<string>, decode: string -> Option<Claims>, parseUuid: string -> Option<Id>,
                           users: map<Id, Principal>, u: Principal)
    requires CurrentUser(token, decode, parseUuid, users) == Authenticated(u)
    ensures Truthy(token) && decode(token.value).Some?
    ensures var c := decode(token.value).value;
      && Truthy(c.sub) && parseUuid(c.sub.value).Some?
      && parseUuid(c.sub.value).value in users && users[parseUuid(c.sub.value).value] == u
      && (u.passwordChangedAt.None? || u.passwordChangedAt.value <= c.iat.GetOr(0))
  {
  }

  /** A password change at exactly the issue time is accepted, one after it is
      rejected. */
  lemma PasswordChangeBoundary(token: string, decode: string -> Option<Claims>, parseUuid: string -> Option<Id>,
                               users: map<Id, Principal>, uid: Id, issuedAt: Time)
    requires token != "" && decode(token) == Some(Claims(Some("s"), Some(issuedAt))) && parseUuid("s") == Some(uid)
    requires uid in users
    ensures users[uid].passwordChangedAt == Some(issuedAt) ==> CurrentUser(Some(token), decode, parseUuid, users) == Authenticated(users[uid])
    ensures users[uid].passwordChangedAt.None? ==> CurrentUser(Some(token), decode, parseUuid, users) == Authenticated(users[uid])
    ensures users[uid].passwordChangedAt == Some(issuedAt + 1) ==> CurrentUser(Some(token), decode, parseUuid, users) == Denied(PasswordChanged)
  {
  }

  /** The optional variant answers `None` exactly when the token is missing or
      the strict variant gives an HTTP error, the same user when it succeeds,
      and lets other exceptions through. */
  lemma OptionalMatchesStrict(token: Option<string>, decode: string -> Option<Claims>, parseUuid: string -> Option<Id>,
                              users: map<Id, Principal>)
    ensures var strict := CurrentUser(token, decode, parseUuid, users);
      var opt := CurrentUserOptional(token, decode, parseUuid, users);
      && (opt == Ok(None) <==> !Truthy(token) || strict.Denied?)
      && (forall u :: opt == Ok(Some(u)) <==> strict == Authenticated(u))
      && (opt.Err? <==> strict.Crashed?)
  {
  }

  /** The role check passes a permitted user through unchanged, turns any
      other user into a 403, and leaves failures as they were. */
  lemma RolesCheck(allowedRoles: seq<string>, current: AuthOutcome)
    ensures var r := RequireRoles(allowedRoles, current);
      && (current.Authenticated? && current.user.role in allowedRoles ==> r == current)
      && (current.Authenticated? && current.user.role !in allowedRoles ==> r == Denied(Forbidden))
      && (!current.Authenticated? ==> r == current)
      && (r.Authenticated? ==> r == current && r.user.role in allowedRoles)
  {
  }
}
