/**
 * The role-to-permission table of `src/types/user.ts` and the lookup the
 * authentication hook performs with it (`src/hooks/useAuth.ts`).
 */
module Permissions {
  import opened Js

  /** `UserRole` */
  datatype UserRole = Admin | Manager | Operator | Viewer

  /** The seven flags of `UserPermissions`, by name. */
  datatype Permission =
    | CreateFarms | EditFarms | DeleteFarms | ManageUsers | ViewReports | ExportData | ManageSettings

  /** `UserPermissions` */
  datatype UserPermissions = UserPermissions(
    canCreateFarms: bool, canEditFarms: bool, canDeleteFarms: bool, canManageUsers: bool,
    canViewReports: bool, canExportData: bool, canManageSettings: bool)
  {
    /** The flag for `p`. */
    function Grants(p: Permission): bool {
      match p
      case CreateFarms => canCreateFarms
      case EditFarms => canEditFarms
      case DeleteFarms => canDeleteFarms
      case ManageUsers => canManageUsers
      case ViewReports => canViewReports
      case ExportData => canExportData
      case ManageSettings => canManageSettings
    }
  }

  /** `rolePermissions[role]`: every role may view reports; only an administrator may delete farms. */
  function RolePermissions(role: UserRole): (r: UserPermissions)
    ensures r.canViewReports
    ensures r.canDeleteFarms <==> role == Admin
  {
    match role
    case Admin => UserPermissions(true, true, true, true, true, true, true)
    case Manager => UserPermissions(true, true, false, false, true, true, false)
    case Operator => UserPermissions(false, true, false, false, true, false, false)
    case Viewer => UserPermissions(false, false, false, false, true, false, false)
  }

  /**
   * The hook's permissions: the profile's role, or the viewer's when there is
   * no profile. A visitor without a profile may only view reports, and every
   * role holds at least what such a visitor holds.
   */
  function PermissionsFor(profileRole: Option<UserRole>): (r: UserPermissions)
    ensures profileRole.Some? ==> r == RolePermissions(profileRole.value)
    ensures profileRole.None? ==> forall p: Permission :: r.Grants(p) <==> p == ViewReports
    ensures profileRole.None? ==> forall role: UserRole :: Covers(RolePermissions(role), r)
  {
    if profileRole.Some? then RolePermissions(profileRole.value) else RolePermissions(Viewer)
  }

  /** Position of a role in the chain viewer, operator, manager, admin. */
  function Level(role: UserRole): (n: nat)
    ensures n <= 3
    ensures n == 3 <==> role == Admin
  {
    match role
    case Viewer => 0
    case Operator => 1
    case Manager => 2
    case Admin => 3
  }

  /** Every flag `b` grants, `a` grants too. */
  predicate Covers(a: UserPermissions, b: UserPermissions) {
    forall p: Permission :: b.Grants(p) ==> a.Grants(p)
  }

  /** An administrator holds every permission. */
  lemma AdminHasEverything(p: Permission)
    ensures RolePermissions(Admin).Grants(p)
  {
  }

  /** Every role, and a visitor without a profile, may view reports. */
  lemma EveryoneViewsReports(role: UserRole, profileRole: Option<UserRole>)
    ensures RolePermissions(role).Grants(ViewReports)
    ensures PermissionsFor(profileRole).Grants(ViewReports)
  {
  }

  /** Deleting farms, managing users and managing settings are for administrators only. */
  lemma AdminOnlyPermissions(role: UserRole, p: Permission)
    requires p == DeleteFarms || p == ManageUsers || p == ManageSettings
    ensures RolePermissions(role).Grants(p) <==> role == Admin
  {
  }

  /**
   * The table is a chain: a role higher up holds every permission of a role
   * lower down, and strictly more, so the permissions also determine the role.
   */
  lemma PermissionsMonotone(lower: UserRole, higher: UserRole)
    ensures Level(lower) <= Level(higher) ==> Covers(RolePermissions(higher), RolePermissions(lower))
    ensures Level(lower) < Level(higher) ==> !Covers(RolePermissions(lower), RolePermissions(higher))
    ensures RolePermissions(lower) == RolePermissions(higher) ==> lower == higher
  {
    if Level(lower) < Level(higher) {
      var extra := match higher
        case Operator => EditFarms
        case Manager => if lower == Operator then CreateFarms else EditFarms
        case _ => DeleteFarms;
      assert RolePermissions(higher).Grants(extra) && !RolePermissions(lower).Grants(extra);
    }
  }
}
