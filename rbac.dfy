/**
 * lib/rbac.ts: the five user roles, their hierarchy, display texts and the
 * default permission table.
 */
module Rbac {
  import opened Common

  datatype Role = Owner | Admin | Accountant | Member | Viewer

  /** The stored spelling of each role. */
  function RoleName(role: Role): string {
    match role
    case Owner => "owner"
    case Admin => "admin"
    case Accountant => "accountant"
    case Member => "member"
    case Viewer => "viewer"
  }

  /** Reads a stored role string; anything else is not a role. */
  function ParseRole(s: string): (r: Option<Role>)
    ensures r.Some? ==> RoleName(r.value) == s
    ensures r.None? ==> forall role: Role :: RoleName(role) != s
  {
    if s == "owner" then Some(Owner)
    else if s == "admin" then Some(Admin)
    else if s == "accountant" then Some(Accountant)
    else if s == "member" then Some(Member)
    else if s == "viewer" then Some(Viewer)
    else None
  }

  lemma ParseRoleName(role: Role)
    ensures ParseRole(RoleName(role)) == Some(role)
  {
  }

  /** `roleHierarchy`: higher means more permissions. */
  function Level(role: Role): (n: nat)
    ensures 1 <= n <= 5
  {
    match role
    case Owner => 5
    case Admin => 4
    case Accountant => 3
    case Member => 2
    case Viewer => 1
  }

  /** `roleHierarchy[userRole] || 0`: an unknown role string has level 0. */
  function UserLevel(userRole: string): (n: nat)
    ensures n == 0 <==> ParseRole(userRole).None?
  {
    match ParseRole(userRole)
    case None => 0
    case Some(role) => Level(role)
  }

  /** The roles from least to most privileged. */
  const Ladder: seq<Role> := [Viewer, Member, Accountant, Admin, Owner]

  /** `requireRole(userRole, minRole)`. */
  function RequireRole(userRole: string, minRole: Role): (ok: bool)
    ensures ok ==> ParseRole(userRole).Some?
    ensures ParseRole(userRole).Some? ==> (ok <==> Outranks(ParseRole(userRole).value, minRole))
  {
    UserLevel(userRole) >= Level(minRole)
  }

  /** The order of the roles spelled out pair by pair: `a` is `b` or above it. */
  predicate Outranks(a: Role, b: Role) {
    || a == b
    || a == Owner
    || b == Viewer
    || (a == Admin && (b == Accountant || b == Member))
    || (a == Accountant && b == Member)
  }

  lemma LevelIsLadderPosition()
    ensures forall i :: 0 <= i < |Ladder| ==> Level(Ladder[i]) == i + 1
    ensures forall role: Role :: Ladder[Level(role) - 1] == role
  {
  }

  /** The documented examples: a member is below admin, the owner is above it. */
  lemma RequireRoleExamples()
    ensures !RequireRole("member", Admin)
    ensures RequireRole("owner", Admin)
  {
  }

  /** The owner passes every check; an unknown role passes none. */
  lemma RequireRoleExtremes(userRole: string, minRole: Role)
    ensures RequireRole("owner", minRole)
    ensures ParseRole(userRole).None? ==> !RequireRole(userRole, minRole)
    ensures RequireRole(userRole, Viewer) <==> ParseRole(userRole).Some?
  {
  }

  /** The router guards' "owner or admin" test is `requireRole(role, admin)`. */
  lemma AdminGuardIsRequireRole(userRole: string)
    ensures RequireRole(userRole, Admin) <==> IsOwnerOrAdmin(userRole)
  {
  }

  /** Passing a check implies passing every weaker one. */
  lemma RequireRoleTransitive(a: Role, b: Role, c: Role)
    requires RequireRole(RoleName(a), b) && RequireRole(RoleName(b), c)
    ensures RequireRole(RoleName(a), c)
  {
    ParseRoleName(a);
    ParseRoleName(b);
  }

  /** Any two roles are comparable. */
  lemma RequireRoleTotal(a: Role, b: Role)
    ensures RequireRole(RoleName(a), b) || RequireRole(RoleName(b), a)
  {
    ParseRoleName(a);
    ParseRoleName(b);
  }

  // ---------------------------------------------------------------------
  // Display texts
  // ---------------------------------------------------------------------

  function Label(role: Role): string {
    match role
    case Owner => "Owner"
    case Admin => "Administrator"
    case Accountant => "Accountant"
    case Member => "Member"
    case Viewer => "Viewer"
  }

  /** `getRoleLabel`: "Unknown" exactly for strings that are not a role. */
  function GetRoleLabel(role: string): (r: string)
    ensures r == "Unknown" <==> ParseRole(role).None?
    ensures ParseRole(role).Some? ==> r == Label(ParseRole(role).value)
  {
    match ParseRole(role)
    case None => "Unknown"
    case Some(x) => Label(x)
  }

  function Description(role: Role): string {
    match role
    case Owner => "Full access to all features and settings"
    case Admin => "Manage users, settings, and all financial data"
    case Accountant => "Manage all financial data but cannot change settings"
    case Member => "Create and edit assigned records"
    case Viewer => "View-only access to financial data"
  }

  /** `getRoleDescription`: "Unknown role" exactly for strings that are not a role. */
  function GetRoleDescription(role: string): (r: string)
    ensures r == "Unknown role" <==> ParseRole(role).None?
    ensures ParseRole(role).Some? ==> r == Description(ParseRole(role).value)
  {
    match ParseRole(role)
    case None => "Unknown role"
    case Some(x) => Description(x)
  }

  /** Different roles are shown differently. */
  lemma LabelsDistinct(a: Role, b: Role)
    ensures a != b ==> Label(a) != Label(b) && Description(a) != Description(b)
  {
  }

  // ---------------------------------------------------------------------
  // Permissions
  // ---------------------------------------------------------------------

  type ResourcePermissions = map<string, bool>
  type RolePermissions = map<string, ResourcePermissions>

  function Actions(create: bool, read: bool, update: bool, delete: bool): ResourcePermissions {
    map["create" := create, "read" := read, "update" := update, "delete" := delete]
  }

  function RolePermissionTable(
    invoices: ResourcePermissions, expenses: ResourcePermissions, customers: ResourcePermissions,
    accounts: ResourcePermissions, transactions: ResourcePermissions,
    reportsExport: bool, settingsRead: bool, settingsUpdate: bool,
    usersInvite: bool, usersManage: bool, usersRemove: bool): RolePermissions
  {
    map["invoices" := invoices, "expenses" := expenses, "customers" := customers,
        "accounts" := accounts, "transactions" := transactions,
        "reports" := map["read" := true, "export" := reportsExport],
        "settings" := map["read" := settingsRead, "update" := settingsUpdate],
        "users" := map["invite" := usersInvite, "manage" := usersManage, "remove" := usersRemove]]
  }

  /** `defaultPermissions[role]`. */
  function DefaultPermissions(role: Role): RolePermissions {
    match role
    case Owner =>
      RolePermissionTable(
        Actions(true, true, true, true)["send" := true],
        Actions(true, true, true, true)["approve" := true],
        Actions(true, true, true, true),
        Actions(true, true, true, true),
        Actions(true, true, true, true)["void" := true],
        true, true, true, true, true, true)
    case Admin =>
      RolePermissionTable(
        Actions(true, true, true, true)["send" := true],
        Actions(true, true, true, true)["approve" := true],
        Actions(true, true, true, true),
        Actions(true, true, true, false),
        Actions(true, true, true, false)["void" := true],
        true, true, false, true, false, false)
    case Accountant =>
      RolePermissionTable(
        Actions(true, true, true, false)["send" := true],
        Actions(true, true, true, false)["approve" := true],
        Actions(true, true, true, false),
        Actions(false, true, false, false),
        Actions(true, true, true, false)["void" := false],
        true, true, false, false, false, false)
    case Member =>
      RolePermissionTable(
        Actions(true, true, true, false)["send" := false],
        Actions(true, true, true, false)["approve" := false],
        Actions(true, true, true, false),
        Actions(false, true, false, false),
        Actions(false, true, false, false)["void" := false],
        false, false, false, false, false, false)
    case Viewer =>
      RolePermissionTable(
        Actions(false, true, false, false)["send" := false],
        Actions(false, true, false, false)["approve" := false],
        Actions(false, true, false, false),
        Actions(false, true, false, false),
        Actions(false, true, false, false)["void" := false],
        false, false, false, false, false, false)
  }

  /** `hasPermission(role, resource, action)`: only an explicit `true` grants. */
  function HasPermission(role: string, resource: string, action: string): (granted: bool)
    ensures granted ==> ParseRole(role).Some?
    ensures granted <==>
              ParseRole(role).Some? &&
              resource in DefaultPermissions(ParseRole(role).value) &&
              action in DefaultPermissions(ParseRole(role).value)[resource] &&
              DefaultPermissions(ParseRole(role).value)[resource][action]
  {
    match ParseRole(role)
    case None => false
    case Some(r) =>
      var permissions := DefaultPermissions(r);
      if resource !in permissions then false
      else
        var resourcePerms := permissions[resource];
        action in resourcePerms && resourcePerms[action]
  }

  /** The documented examples. */
  lemma HasPermissionExamples()
    ensures !HasPermission("member", "invoices", "delete")
    ensures HasPermission("admin", "invoices", "delete")
  {
  }

  /** Everything listed is granted to the owner. */
  lemma OwnerHasEveryPermission(resource: string, action: string)
    requires resource in DefaultPermissions(Owner) && action in DefaultPermissions(Owner)[resource]
    ensures HasPermission("owner", resource, action)
  {
  }

  /** Viewers may read every resource and do nothing else. */
  lemma ViewerOnlyReads(resource: string, action: string)
    ensures HasPermission("viewer", resource, action) <==>
              resource in DefaultPermissions(Viewer) && resource != "settings" && resource != "users" && action == "read"
  {
  }

  /** Granted to the lower of two adjacent roles implies granted to the higher. */
  lemma AdjacentTablesIncrease(i: nat, resource: string, action: string)
    requires i + 1 < |Ladder|
    requires HasPermission(RoleName(Ladder[i]), resource, action)
    ensures HasPermission(RoleName(Ladder[i + 1]), resource, action)
  {
    ParseRoleName(Ladder[i]);
    ParseRoleName(Ladder[i + 1]);
    if i == 0 {
      ViewerBelowMember(resource, action);
    } else if i == 1 {
      MemberBelowAccountant(resource, action);
    } else if i == 2 {
      AccountantBelowAdmin(resource, action);
    } else {
      AdminBelowOwner(resource, action);
    }
  }

  /** The role's own table lists the action for the resource as `true`. */
  predicate Grants(role: Role, resource: string, action: string) {
    resource in DefaultPermissions(role) && action in DefaultPermissions(role)[resource]
    && DefaultPermissions(role)[resource][action]
  }

  lemma ViewerBelowMember(resource: string, action: string)
    requires Grants(Viewer, resource, action)
    ensures Grants(Member, resource, action)
  {
  }

  lemma MemberBelowAccountant(resource: string, action: string)
    requires Grants(Member, resource, action)
    ensures Grants(Accountant, resource, action)
  {
  }

  lemma AccountantBelowAdmin(resource: string, action: string)
    requires Grants(Accountant, resource, action)
    ensures Grants(Admin, resource, action)
  {
  }

  lemma AdminBelowOwner(resource: string, action: string)
    requires Grants(Admin, resource, action)
    ensures Grants(Owner, resource, action)
  {
  }

  /**
   * The permission table agrees with the hierarchy: whatever a role may do,
   * every role at or above it in `roleHierarchy` may do too.
   */
  lemma {:induction false} PermissionsFollowHierarchy(lower: Role, higher: Role, resource: string, action: string)
    requires RequireRole(RoleName(higher), lower)
    requires HasPermission(RoleName(lower), resource, action)
    ensures HasPermission(RoleName(higher), resource, action)
  {
    LevelIsLadderPosition();
    ParseRoleName(higher);
    var i := Level(lower) - 1;
    var j := Level(higher) - 1;
    assert Ladder[i] == lower && Ladder[j] == higher;
    Climb(i, j, resource, action);
  }

  lemma {:induction false} Climb(i: nat, j: nat, resource: string, action: string)
    requires i <= j < |Ladder|
    requires HasPermission(RoleName(Ladder[i]), resource, action)
    ensures HasPermission(RoleName(Ladder[j]), resource, action)
    decreases j - i
  {
    if i < j {
      AdjacentTablesIncrease(i, resource, action);
      Climb(i + 1, j, resource, action);
    }
  }
}
