/**
 * The `useUserRole` hook: the signed-in demo user, a role switch, and a
 * rank-based permission check (employee < manager < finance < admin).
 */
module UserRole {

  datatype Role = Employee | Manager | Finance | Admin

  datatype User = User(id: string, name: string, role: Role, department: string)

  /** The position of a role in the hierarchy table. */
  function Rank(r: Role): (n: int)
    ensures 1 <= n <= 4
  {
    match r
    case Employee => 1
    case Manager => 2
    case Finance => 3
    case Admin => 4
  }

  /** `hasPermission(required)` for a user whose role is `current`. */
  predicate HasPermission(current: Role, required: Role) {
    Rank(current) >= Rank(required)
  }

  predicate IsManager(u: User) { u.role == Manager }
  predicate IsFinance(u: User) { u.role == Finance }
  predicate IsAdmin(u: User) { u.role == Admin }

  /** The user the hook starts with. */
  function DefaultUser(): (u: User)
    ensures IsManager(u) && !IsFinance(u) && !IsAdmin(u)
  {
    User("1", "Alex Johnson", Manager, "Operations")
  }

  /** Different roles have different ranks, so the hierarchy is a total order. */
  lemma RankInjective(a: Role, b: Role)
    requires Rank(a) == Rank(b)
    ensures a == b
  {
  }

  /** The hierarchy runs employee < manager < finance < admin, so finance outranks a manager and not the reverse. */
  lemma RankOrder()
    ensures Rank(Employee) < Rank(Manager) < Rank(Finance) < Rank(Admin)
    ensures HasPermission(Finance, Manager) && !HasPermission(Manager, Finance)
  {
  }

  /** Every role has its own permission. */
  lemma PermissionReflexive(r: Role)
    ensures HasPermission(r, r)
  {
  }

  /** Any two roles are comparable: one of them holds the other's permission. */
  lemma PermissionTotal(a: Role, b: Role)
    ensures HasPermission(a, b) || HasPermission(b, a)
  {
  }

  /** Holding a role's permission includes every lower role's permission. */
  lemma PermissionDownwardClosed(current: Role, required: Role, lower: Role)
    requires HasPermission(current, required)
    requires Rank(lower) <= Rank(required)
    ensures HasPermission(current, lower)
  {
  }

  /** Admin holds every permission; an employee holds only the employee permission. */
  lemma AdminAndEmployeeExtremes(r: Role)
    ensures HasPermission(Admin, r)
    ensures HasPermission(Employee, r) <==> r == Employee
  {
  }

  /** Mutual permission means equal roles. */
  lemma PermissionAntisymmetric(a: Role, b: Role)
    requires HasPermission(a, b) && HasPermission(b, a)
    ensures a == b
  {
    RankInjective(a, b);
  }

  /** At most one of the role flags is set, and each one matches its role exactly. */
  lemma FlagsExclusive(u: User)
    ensures IsManager(u) <==> u.role == Manager
    ensures IsFinance(u) <==> u.role == Finance
    ensures IsAdmin(u) <==> u.role == Admin
    ensures !(IsManager(u) && IsFinance(u)) && !(IsManager(u) && IsAdmin(u)) && !(IsFinance(u) && IsAdmin(u))
  {
  }

  /** The hook's state: the current user, replaced by `switchRole`. */
  class RoleContext {
    var currentUser: User

    constructor ()
      ensures currentUser == DefaultUser()
    {
      currentUser := DefaultUser();
    }

    /** `switchRole(role)`: keeps id, name and department, replaces the role. */
    method SwitchRole(role: Role)
      modifies this
      ensures currentUser.role == role
      ensures currentUser.id == old(currentUser.id) && currentUser.name == old(currentUser.name)
      ensures currentUser.department == old(currentUser.department)
    {
      currentUser := currentUser.(role := role);
    }

    predicate HasPermissionFor(required: Role)
      reads this
    {
      HasPermission(currentUser.role, required)
    }
  }
}
