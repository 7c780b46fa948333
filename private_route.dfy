/** The route guard of src/components/PrivateRoute.jsx and the roles the route table of
    src/App.jsx asks of it. */
module PrivateRoute {
  import opened Wrappers
  import opened Json

  const Admin: string := "ADMIN"
  const Volunteer: string := "VOLUNTEER"

  datatype Outcome = Loading | RedirectLogin | RedirectDashboard | Render

  /** `role && ...`: a role prop that is absent or empty asks for nothing. */
  predicate RoleRequired(role: Option<string>) {
    role.Some? && role.value != ""
  }

  /** The user's role equals the required one; any other value, an unrecognised role
      or a missing one, does not. */
  predicate HasRole(user: Json, role: string) {
    Get(user, "role") == Some(JStr(role))
  }

  /** The three guarded early returns, then the children. */
  function Decide(loading: bool, user: Json, role: Option<string>): (o: Outcome)
    ensures loading ==> o == Loading
    ensures !loading && !Truthy(user) ==> o == RedirectLogin
    ensures !loading && Truthy(user) && RoleRequired(role) && !HasRole(user, role.value) ==>
      o == RedirectDashboard
    ensures o == Render <==>
      !loading && Truthy(user) && (!RoleRequired(role) || HasRole(user, role.value))
  {
    if loading then Loading
    else if !Truthy(user) then RedirectLogin
    else if RoleRequired(role) && Get(user, "role") != Some(JStr(role.value)) then RedirectDashboard
    else Render
  }

  /** The role each private route of the route table demands. */
  function RouteRole(path: string): (r: Option<string>)
    ensures r.Some? <==> path == "/admin" || path == "/volunteer"
    ensures path == "/admin" ==> r == Some(Admin)
    ensures path == "/volunteer" ==> r == Some(Volunteer)
  {
    if path == "/admin" then Some(Admin)
    else if path == "/volunteer" then Some(Volunteer)
    else None
  }

  /** Role gates fail closed: a volunteer is refused the admin panel, an admin the
      volunteer panel, and a user whose role is anything but the required string (or
      who has none) is sent to the dashboard once loading is over. */
  lemma RoleGatesFailClosed(user: Json)
    requires Truthy(user)
    ensures HasRole(user, Volunteer) ==> Decide(false, user, RouteRole("/admin")) == RedirectDashboard
    ensures HasRole(user, Admin) ==> Decide(false, user, RouteRole("/volunteer")) == RedirectDashboard
    ensures Decide(false, user, RouteRole("/admin")) == Render <==> HasRole(user, Admin)
    ensures Decide(false, user, RouteRole("/volunteer")) == Render <==> HasRole(user, Volunteer)
  {
  }

  /** Routes without a role admit every signed-in user. */
  lemma UnroledRoutesAdmitAnyUser(user: Json, path: string)
    requires Truthy(user) && path != "/admin" && path != "/volunteer"
    ensures Decide(false, user, RouteRole(path)) == Render
  {
  }
}
