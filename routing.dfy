/**
 * `ProtectedRoute`: what a guarded page shows, given the session state the
 * provider hands out and the role the page asks for.
 */
module Routing {
  import opened Wrappers
  import opened Http
  import opened Text
  import opened AuthContext
  import Accounts

  /** What the route renders: the placeholder, a redirect, or the page itself. */
  datatype Decision = ShowLoading | Redirect(path: string) | Allow

  /** The user's role is set and is not the one the page asks for. */
  predicate WrongRole(user: User, required: Option<string>) {
    Present(required) && Present(user.role) && user.role.value != required.value
  }

  /** Where a user with the wrong role is sent. */
  function HomeFor(required: Option<string>): (r: string)
    ensures r == "/dashboard" || r == "/doctor-dashboard"
    ensures r == "/dashboard" <==> required == Some("doctor")
  {
    if required == Some("doctor") then "/dashboard" else "/doctor-dashboard"
  }

  /** The decision of `ProtectedRoute`. */
  function ProtectedRoute(loading: bool, user: Option<User>, required: Option<string>): (r: Decision)
    ensures loading ==> r == ShowLoading
    ensures !loading && user.None? ==> r == Redirect("/login")
    ensures r == Allow <==> !loading && user.Some? && !WrongRole(user.value, required)
    ensures !loading && user.Some? && WrongRole(user.value, required) ==> r == Redirect(HomeFor(required))
  {
    if loading then ShowLoading
    else if user.None? then Redirect("/login")
    else if WrongRole(user.value, required) then Redirect(HomeFor(required))
    else Allow
  }

  /**
   * The page is shown to a signed-in user exactly when no role is asked
   * for, the user has no role, or the roles agree; in particular a user
   * without a role passes every guard.
   */
  lemma AllowedUsers(user: User, required: Option<string>)
    ensures ProtectedRoute(false, Some(user), required) == Allow
      <==> !Present(required) || !Present(user.role) || user.role.value == required.value
    ensures !Present(user.role) ==> ProtectedRoute(false, Some(user), required) == Allow
    ensures !Present(required) ==> ProtectedRoute(false, Some(user), required) == Allow
  {
  }

  /**
   * A doctor-guard failure redirects to `/dashboard` and a patient-guard
   * failure to `/doctor-dashboard`, and only users whose role differs from
   * the one asked for are redirected.
   */
  lemma RedirectLeavesRole(user: User, required: Option<string>)
    requires required == Some("doctor") || required == Some("patient")
    requires ProtectedRoute(false, Some(user), required).Redirect?
    ensures required == Some("doctor") ==> ProtectedRoute(false, Some(user), required) == Redirect("/dashboard")
    ensures required == Some("patient") ==> ProtectedRoute(false, Some(user), required) == Redirect("/doctor-dashboard")
    ensures Present(user.role) && user.role != required
  {
  }

  /**
   * A profile stored without a role (as the register page writes it) logs
   * in with no role, and the session that login starts passes every guard,
   * whichever role the page asks for.
   */
  lemma RoleLessProfilePassesGuards(users: seq<Accounts.UserDoc>, req: Accounts.LoginRequest,
                                    signedIn: Ext<Accounts.Tokens>, required: Option<string>)
    requires Accounts.Login(users, req, signedIn, true).Sent?
    requires var p := Accounts.Get(users, signedIn.value.localId); p.Some? && p.value.role.None?
    ensures var u := SessionUser(Accounts.Login(users, req, signedIn, true).body);
      u.role.None? && ProtectedRoute(false, Some(u), required) == Allow
  {
    var u := SessionUser(Accounts.Login(users, req, signedIn, true).body);
    AllowedUsers(u, required);
  }
}
