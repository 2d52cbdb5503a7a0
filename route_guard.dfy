/**
 * The protected-route decision and the login page's redirect, both ranking a
 * profile's permission level by its position in the role list.
 */
module RouteGuard {
  import opened Wrappers
  import opened Schema

  /** The user record as these components read it: an optional profile and optional stats. */
  datatype GuardUser = GuardUser(profile: Option<UserProfile>, stats: Option<UserStats>)

  /** What the guard renders. `Crash` is the TypeError of reading `.profile` on a null user. */
  datatype Outcome = Spinner | RedirectLogin | RedirectHome | RenderChildren | Crash

  /** The `role` enum values in their declared order. */
  const Roles: seq<PermissionRole> := [STUDENT, TEACHER, ADMIN]

  /** `roles.indexOf(role)`. */
  function RoleIndex(role: PermissionRole): (n: nat)
    ensures n < |Roles| && Roles[n] == role
    ensures forall k :: 0 <= k < n ==> Roles[k] != role
  {
    match role
    case STUDENT => 0
    case TEACHER => 1
    case ADMIN => 2
  }

  /** `roles.indexOf(user.profile?.permission_level || 'STUDENT')`: a missing level ranks as a student. */
  function Rank(profile: Option<UserProfile>): (n: nat)
    ensures n <= 2
    ensures profile.None? || profile.value.permissionLevel.None? ==> n == 0
  {
    var level := if profile.Some? && profile.value.permissionLevel.Some? then profile.value.permissionLevel.value else STUDENT;
    RoleIndex(level)
  }

  /** The `permissionLevel` prop when a route gives none. */
  const DefaultPermissionLevel := 0

  /** `ProtectedRoute`: spinner while loading, then profile and stats, then rank against the required level. */
  function Guard(loading: bool, user: Option<GuardUser>, permissionLevel: int): Outcome {
    if loading then Spinner
    else if user.None? then Crash
    else if user.value.profile.None? || user.value.stats.None? then RedirectLogin
    else if permissionLevel > Rank(user.value.profile) then RedirectHome
    else RenderChildren
  }

  /** While loading the spinner is shown whatever the user state. */
  lemma LoadingShowsSpinner(user: Option<GuardUser>, permissionLevel: int)
    ensures Guard(true, user, permissionLevel) == Spinner
  {
  }

  /** The guard renders its children exactly for a loaded user with profile and stats whose rank reaches the level. */
  lemma RendersIff(loading: bool, user: Option<GuardUser>, permissionLevel: int)
    ensures Guard(loading, user, permissionLevel) == RenderChildren <==>
            !loading && user.Some? && user.value.profile.Some? && user.value.stats.Some? &&
            permissionLevel <= Rank(user.value.profile)
  {
  }

  /** At the default level every user with profile and stats is let in, whatever the role. */
  lemma DefaultLevelAdmitsEveryProfile(u: GuardUser)
    requires u.profile.Some? && u.stats.Some?
    ensures Guard(false, Some(u), DefaultPermissionLevel) == RenderChildren
  {
  }

  /** Lowering the required level never locks out a user who was admitted. */
  lemma LowerLevelStillAdmits(user: Option<GuardUser>, k: int, j: int)
    requires j <= k && Guard(false, user, k) == RenderChildren
    ensures Guard(false, user, j) == RenderChildren
  {
  }

  /** The admin route (level 1) admits teachers and admins and sends students, and users without a level, home. */
  lemma AdminRouteRoles(u: GuardUser)
    requires u.profile.Some? && u.stats.Some?
    ensures Guard(false, Some(u), 1) == RenderChildren <==>
            u.profile.value.permissionLevel == Some(TEACHER) || u.profile.value.permissionLevel == Some(ADMIN)
    ensures Guard(false, Some(u), 1) != RenderChildren ==> Guard(false, Some(u), 1) == RedirectHome
  {
  }

  /** What the login page does before showing its form. */
  datatype LoginView = LoginCrash | LoginRedirect(path: string) | ShowForm

  /** `LoginPage`'s first branch: with profile and stats, a rank above student goes to /admin, otherwise /game. */
  function LoginEntry(user: Option<GuardUser>): LoginView {
    if user.None? then LoginCrash
    else if user.value.profile.Some? && user.value.stats.Some? then
      LoginRedirect(if Rank(user.value.profile) > 0 then "/admin" else "/game")
    else ShowForm
  }

  /** The login page sends a user to /admin exactly when the admin route's guard would admit them. */
  lemma LoginAdminAgreesWithGuard(u: GuardUser)
    ensures LoginEntry(Some(u)) == LoginRedirect("/admin") <==> Guard(false, Some(u), 1) == RenderChildren
  {
    assert "/admin" != "/game";
  }
}
