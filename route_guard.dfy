/** The page guard of `components/ProtectedRoute.tsx`: what one evaluation
    against the current user renders and where it redirects. */
module RouteGuard {
  import opened Common
  import opened Auth

  /** One evaluation: the redirect the effect issues, if any, and whether
      the children are rendered. */
  datatype Decision = Decision(redirect: Option<string>, renders: bool)

  /** May this user see the page? */
  predicate Allowed(user: Option<UserData>, adminOnly: bool) {
    user.Some? && (!adminOnly || user.value.isAdmin)
  }

  function Guard(user: Option<UserData>, adminOnly: bool): (d: Decision)
    ensures d.renders <==> Allowed(user, adminOnly)
    ensures d.renders <==> d.redirect.None?
    ensures user.None? ==> d.redirect == Some("/login")
    ensures user.Some? && adminOnly && !user.value.isAdmin ==> d.redirect == Some("/unauthorized")
  {
    if user.None? then Decision(Some("/login"), false)
    else if adminOnly && !user.value.isAdmin then Decision(Some("/unauthorized"), false)
    else Decision(None, true)
  }

  /** A page without `adminOnly` admits every signed-in user, and an admin
      passes every guard. */
  lemma GuardMonotone(u: UserData)
    ensures Guard(Some(u), false).renders
    ensures u.isAdmin ==> Guard(Some(u), true).renders
    ensures Guard(Some(u), true).renders ==> Guard(Some(u), false).renders
  {
  }

  /** The guard as written ignores the provider's `isLoading`. The first
      evaluation after a page load sees the provider's initial user, which
      is nobody, so a visitor whose session is stored is sent to the login
      page before the provider has read it. */
  lemma ReloadSendsStoredSessionToLogin(items: map<string, string>, u: UserData, json: Foreign.JsonCodec<StoredUser>, adminOnly: bool)
    requires Foreign.JsonLawful(json) && u.token != ""
    ensures Restored(AfterLogin(items, u, json), json) == Some(SignedIn(u))
    ensures Guard(None, adminOnly) == Decision(Some("/login"), false)
  {
    LoginThenReload(items, u, json);
  }

  /** The guard waiting for the provider: while the store has not been read
      it neither redirects nor renders; afterwards the plain rule applies. */
  function LoadingGuard(user: Option<UserData>, isLoading: bool, adminOnly: bool): (d: Decision)
    ensures isLoading ==> d.redirect.None? && !d.renders
    ensures !isLoading ==> (d.renders <==> Allowed(user, adminOnly)) && (d.renders <==> d.redirect.None?)
  {
    if isLoading then Decision(None, false) else Guard(user, adminOnly)
  }

  /** With the loading flag honoured, a reload keeps a stored session: the
      mount state redirects nowhere, and once the store is read the page
      opens exactly when the restored user may see it. */
  lemma ReloadKeepsStoredSession(items: map<string, string>, u: UserData, json: Foreign.JsonCodec<StoredUser>, adminOnly: bool)
    requires Foreign.JsonLawful(json) && u.token != ""
    ensures LoadingGuard(None, true, adminOnly).redirect.None?
    ensures LoadingGuard(Restored(AfterLogin(items, u, json), json), false, adminOnly).renders <==> !adminOnly || u.role == "admin"
  {
    LoginThenReload(items, u, json);
  }

  /** After `login`, an admin-only page opens exactly for the "admin" role,
      whatever `isAdmin` the caller passed; after a reload the same holds
      for the restored user. */
  lemma SessionPassesAdminGuard(items: map<string, string>, u: UserData, json: Foreign.JsonCodec<StoredUser>)
    requires Foreign.JsonLawful(json) && u.token != ""
    ensures LoadingGuard(Some(SignedIn(u)), false, true).renders <==> u.role == "admin"
    ensures LoadingGuard(Restored(AfterLogin(items, u, json), json), false, true).renders <==> u.role == "admin"
  {
    LoginThenReload(items, u, json);
  }

  /** After `logout` and a reload, every guarded page sends the visitor to
      the login page once the store has been read. */
  lemma LoggedOutRedirectsToLogin(items: map<string, string>, json: Foreign.JsonCodec<StoredUser>, adminOnly: bool)
    ensures LoadingGuard(Restored(AfterLogout(items), json), false, adminOnly) == Decision(Some("/login"), false)
  {
    LogoutThenReload(items, json);
  }
}
