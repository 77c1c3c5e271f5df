/** The route guard (src/components/ProtectedRoute.tsx): render the page,
    or redirect a signed-out user to the login page and a user of the wrong
    role to their own dashboard. */
module ProtectedRoute {
  import opened Wrappers
  import opened AuthContext

  datatype Outcome = Render | Redirect(path: string)

  /** The dashboard a role is sent to. */
  function HomeOf(role: Role): string
  {
    match role
    case TeacherRole => "/dashboard"
    case StudentRole => "/student-dashboard"
  }

  /** `ProtectedRoute({ allowedRoles })` for the signed-in `user`. */
  function Guard(user: Option<User>, allowedRoles: seq<Role>): (r: Outcome)
    ensures user.None? ==> r == Redirect("/")
    ensures r == Render <==> user.Some? && user.value.role in allowedRoles
    ensures user.Some? && user.value.role !in allowedRoles ==> r == Redirect(HomeOf(user.value.role))
    ensures r.Redirect? ==> r.path in {"/", "/dashboard", "/student-dashboard"}
  {
    if user.None? then Redirect("/")
    else if user.value.role !in allowedRoles then Redirect(HomeOf(user.value.role))
    else Render
  }

  /** The guarded routes of the application and the roles each allows. */
  function AllowedRolesOf(path: string): (r: Option<seq<Role>>)
    ensures path == "/dashboard" || path == "/notifications" ==> r == Some([TeacherRole])
    ensures path == "/student-dashboard" ==> r == Some([StudentRole])
  {
    if path == "/dashboard" || path == "/notifications" then Some([TeacherRole])
    else if path == "/student-dashboard" then Some([StudentRole])
    else if path == "/student/:id" || path == "/student/:id/recovery" then Some([TeacherRole, StudentRole])
    else None
  }

  /** A signed-in user who is turned away lands on a page the guard lets
      them see: redirection never loops. */
  lemma RedirectIsRendered(user: User, allowedRoles: seq<Role>)
    requires Guard(Some(user), allowedRoles).Redirect?
    ensures var target := Guard(Some(user), allowedRoles).path;
      && AllowedRolesOf(target).Some?
      && Guard(Some(user), AllowedRolesOf(target).value) == Render
  {
  }

  /** Being signed out is decisive: every guarded route sends the visitor
      to the login page, which is unguarded. */
  lemma SignedOutGoesToLogin(path: string)
    requires AllowedRolesOf(path).Some?
    ensures Guard(None, AllowedRolesOf(path).value) == Redirect("/")
    ensures AllowedRolesOf("/").None?
  {
  }

  /** The shared student pages render for either role. */
  lemma SharedRoutesRender(user: User)
    ensures Guard(Some(user), AllowedRolesOf("/student/:id").value) == Render
    ensures Guard(Some(user), AllowedRolesOf("/student/:id/recovery").value) == Render
  {
  }
}
