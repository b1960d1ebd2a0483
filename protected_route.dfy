/** The route wrapper of the client: a spinner while the start-up check runs,
    the login page for a visitor, the home page for a non-admin on an admin
    page, and the page itself otherwise. */
module ProtectedRoute {
  import opened Js
  import opened AuthContext

  /** The part of `useLocation()` that is handed on. */
  datatype Location = Location(pathname: string)

  datatype Outcome =
    | Spinner(message: string)
    | RedirectToLogin(from: Location)   // `<Navigate to="/login" state={{ from: location }} replace />`
    | RedirectHome                      // `<Navigate to="/" replace />`
    | Children

  /** `user?.role === 'admin'`. */
  predicate IsAdmin(user: Option<ClientUser>)
  {
    user.Some? && user.value.role == Some("admin")
  }

  function Decide(auth: AuthState, location: Location, requireAdmin: bool := false): (o: Outcome)
    ensures auth.loading ==> o == Spinner("Verifying authentication...")
    ensures !auth.loading && !auth.IsAuthenticated() ==> o == RedirectToLogin(location)
    ensures !auth.loading && auth.IsAuthenticated() && requireAdmin && !IsAdmin(auth.user) ==> o == RedirectHome
    ensures o == Children <==> !auth.loading && auth.IsAuthenticated() && (!requireAdmin || IsAdmin(auth.user))
  {
    if auth.loading then Spinner("Verifying authentication...")
    else if !auth.IsAuthenticated() then RedirectToLogin(location)
    else if requireAdmin && !IsAdmin(auth.user) then RedirectHome
    else Children
  }

  /** Without `requireAdmin` every signed-in user gets the page; with it only
      an admin does, so an admin page is never shown to anyone a plain page
      would not be shown to. */
  lemma AdminPagesAreNarrower(auth: AuthState, location: Location)
    ensures Decide(auth, location) == Children <==> !auth.loading && auth.IsAuthenticated()
    ensures Decide(auth, location, true) == Children ==> Decide(auth, location) == Children
    ensures IsAdmin(auth.user) ==> Decide(auth, location, true) == Decide(auth, location)
  {
  }
}
