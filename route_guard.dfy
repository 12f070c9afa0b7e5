/**
 * The access rules: the guard that decides between the login form, the
 * protected content and the denial, and the permission predicates built on
 * the signed-in user's role.
 */
module RouteGuard {
  import opened Wrappers
  import opened AuthApi

  /** What the guard renders. */
  datatype Decision = LoginForm | Children | Fallback | AccessDenied

  /**
   * `RouteGuard`: no user gives the login form; a user whose role is not in
   * a given role list gets the fallback when one is given, else the denial
   * panel. An absent list admits everyone; an empty one admits nobody.
   */
  function Guard(user: Option<User>, allowedRoles: Option<seq<CanonRole>>, hasFallback: bool): (d: Decision)
    ensures user.None? <==> d == LoginForm
    ensures user.Some? ==> (d == Children <==> allowedRoles.None? || user.value.role in allowedRoles.value)
    ensures d == Fallback <==> user.Some? && allowedRoles.Some? && user.value.role !in allowedRoles.value && hasFallback
    ensures d == AccessDenied <==> user.Some? && allowedRoles.Some? && user.value.role !in allowedRoles.value && !hasFallback
  {
    if user.None? then LoginForm
    else if allowedRoles.Some? && user.value.role !in allowedRoles.value then
      if hasFallback then Fallback else AccessDenied
    else Children
  }

  /** Without a user the role list is never consulted. */
  lemma NoUserSeesLogin(allowedRoles: Option<seq<CanonRole>>, hasFallback: bool)
    ensures Guard(None, allowedRoles, hasFallback) == LoginForm
  {
  }

  /** An empty role list turns every signed-in user away. */
  lemma EmptyRoleListDeniesAll(u: User, hasFallback: bool)
    ensures Guard(Some(u), Some([]), hasFallback) != Children
    ensures Guard(Some(u), Some([]), hasFallback) != LoginForm
  {
  }

  /** `hasRole`: `user?.role === role`. */
  predicate HasRole(user: Option<User>, role: CanonRole) {
    user.Some? && user.value.role == role
  }

  /** `hasAnyRole`: false without a user, else whether the role is listed. */
  predicate HasAnyRole(user: Option<User>, roles: seq<CanonRole>) {
    user.Some? && user.value.role in roles
  }

  predicate CanViewStudentData(user: Option<User>) {
    HasAnyRole(user, [TeacherRole, DirectorRole])
  }

  predicate CanManageExercises(user: Option<User>) {
    HasRole(user, TeacherRole)
  }

  predicate CanViewSchoolMetrics(user: Option<User>) {
    HasRole(user, DirectorRole)
  }

  predicate CanManageStudents(user: Option<User>) {
    HasAnyRole(user, [TeacherRole, DirectorRole])
  }

  /** `hasRole` is `hasAnyRole` of a one-element list, and the guard admits exactly the users `hasAnyRole` accepts. */
  lemma RolePredicatesAgree(user: Option<User>, role: CanonRole, roles: seq<CanonRole>, hasFallback: bool)
    ensures HasRole(user, role) <==> HasAnyRole(user, [role])
    ensures !HasAnyRole(None, roles)
    ensures user.Some? ==> (Guard(user, Some(roles), hasFallback) == Children <==> HasAnyRole(user, roles))
  {
  }

  /**
   * Comparing roles is comparing their strings, as `user?.role === role` and
   * `roles.includes(user.role)` do: a role list admits a user exactly when it
   * holds a role spelled like the user's.
   */
  lemma RoleTestsCompareNames(user: Option<User>, role: CanonRole, roles: seq<CanonRole>)
    ensures HasRole(user, role) <==> user.Some? && RoleName(user.value.role) == RoleName(role)
    ensures HasAnyRole(user, roles) <==>
              user.Some? && exists i :: 0 <= i < |roles| && RoleName(roles[i]) == RoleName(user.value.role)
  {
    if user.Some? {
      var r := user.value.role;
      RoleNameInjective(r, role);
      forall i | 0 <= i < |roles|
        ensures roles[i] == r <==> RoleName(roles[i]) == RoleName(r)
      {
        RoleNameInjective(roles[i], r);
      }
    }
  }

  /**
   * The capability table: viewing student data and managing students are the
   * same right, held by teachers and directors; managing exercises is the
   * teacher's, school metrics the director's.
   */
  lemma Capabilities(user: Option<User>)
    ensures CanViewStudentData(user) == CanManageStudents(user)
    ensures CanViewStudentData(user) <==> user.Some? && (user.value.role == TeacherRole || user.value.role == DirectorRole)
    ensures CanManageExercises(user) <==> user.Some? && user.value.role == TeacherRole
    ensures CanViewSchoolMetrics(user) <==> user.Some? && user.value.role == DirectorRole
  {
  }

  /** A student, a user with an unknown role, and nobody signed in hold none of the four capabilities. */
  lemma NoCapabilities(user: Option<User>)
    requires user.None? || user.value.role == StudentRole || user.value.role.OtherRole?
    ensures !CanViewStudentData(user) && !CanManageStudents(user)
    ensures !CanManageExercises(user) && !CanViewSchoolMetrics(user)
  {
  }
}
