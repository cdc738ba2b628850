/** The route guard (src/components/auth/AuthGuard.tsx): what a protected
    route shows, given the session state and the role the route asks for. */
module AuthGuard {
  import opened Common

  /** The roles a route may require. */
  datatype Role = Admin | Cashier | Inventory

  function RoleName(r: Role): string {
    match r
    case Admin => "admin"
    case Cashier => "cashier"
    case Inventory => "inventory"
  }

  /** The signed-in user, as far as the guard looks at it. */
  datatype User = User(id: string, role: string)

  /** What the guard renders. */
  datatype View = Spinner | RedirectLogin | RedirectUnauthorized | Children

  /** The guard's decision: the spinner while the session loads, the login
      page without a user, the "unauthorized" page when a role is required
      that the user neither has nor overrides as an admin, and the protected
      content otherwise. */
  function Decide(user: Option<User>, loading: bool, requiredRole: Option<Role>): (v: View)
    ensures loading <==> v == Spinner
    ensures v == RedirectLogin <==> !loading && user.None?
    ensures v == RedirectUnauthorized <==>
              !loading && user.Some? && requiredRole.Some? &&
              user.value.role != RoleName(requiredRole.value) && user.value.role != "admin"
  {
    if loading then Spinner
    else if user.None? then RedirectLogin
    else if requiredRole.Some? && user.value.role != RoleName(requiredRole.value) && user.value.role != "admin"
    then RedirectUnauthorized
    else Children
  }

  /** The content is shown exactly to a loaded user who is an admin, has no
      role to meet, or has the required role. */
  lemma ChildrenIff(user: Option<User>, loading: bool, requiredRole: Option<Role>)
    ensures Decide(user, loading, requiredRole) == Children <==>
              !loading && user.Some? &&
              (requiredRole.None? || user.value.role == "admin" || user.value.role == RoleName(requiredRole.value))
  {
  }

  /** A loaded admin is let through whatever role the route requires. */
  lemma AdminAlwaysAdmitted(u: User, requiredRole: Option<Role>)
    requires u.role == "admin"
    ensures Decide(Some(u), false, requiredRole) == Children
  {
  }

  /** A route without a required role admits every loaded user. */
  lemma NoRoleAdmitsEveryone(u: User)
    ensures Decide(Some(u), false, None) == Children
  {
  }
}
