/** The admin panel's server-side permission checker: a level per role, the roles allowed into
    each module, and the role comparisons built on the levels. */
module AuthUtils {

  /** ROLE_HIERARCHY. */
  const RoleHierarchy: map<string, nat> :=
    map["super_admin" := 4, "guild_admin" := 3, "moderator" := 2, "viewer" := 1]

  const Admins: seq<string> := ["guild_admin", "super_admin"]

  /** MODULE_PERMISSIONS: the roles allowed into each module. */
  const ModulePermissions: map<string, seq<string>> :=
    map["fame_points" := Admins,
        "taxi_system" := Admins,
        "banking_system" := Admins,
        "mechanics_system" := ["moderator", "guild_admin", "super_admin"],
        "analytics" := Admins,
        "user_management" := ["super_admin"],
        "audit_logs" := Admins,
        "bot_config" := ["super_admin"]]

  /** has_permission: the role is listed for the permission; an unknown permission lists no
      role. */
  function HasPermission(role: string, permission: string): (ok: bool)
    ensures ok <==> permission in ModulePermissions && role in ModulePermissions[permission]
    ensures permission !in ModulePermissions ==> !ok
  {
    role in (if permission in ModulePermissions then ModulePermissions[permission] else [])
  }

  /** can_access_module: the same question asked of a module name. */
  function CanAccessModule(role: string, moduleName: string): (ok: bool)
    ensures ok == HasPermission(role, moduleName)
  {
    HasPermission(role, moduleName)
  }

  /** The level of a role, 0 for a role outside the hierarchy. */
  function Level(role: string): (n: nat)
    ensures role !in RoleHierarchy ==> n == 0
    ensures role in RoleHierarchy ==> 1 <= n <= 4
  {
    if role in RoleHierarchy then RoleHierarchy[role] else 0
  }

  /** The four roles have four different levels. */
  lemma LevelsDistinct(a: string, b: string)
    requires a in RoleHierarchy && b in RoleHierarchy && a != b
    ensures Level(a) != Level(b)
  {
  }

  /** is_higher_role: role1's level is strictly above role2's. */
  function IsHigherRole(role1: string, role2: string): (r: bool)
    ensures r <==> Level(role1) > Level(role2)
  {
    var level1 := Level(role1);
    var level2 := Level(role2);
    level1 > level2
  }

  /** can_manage_user: an admin manages exactly the users of a lower role. */
  function CanManageUser(adminRole: string, targetRole: string): (r: bool)
    ensures r <==> IsHigherRole(adminRole, targetRole)
  {
    IsHigherRole(adminRole, targetRole)
  }

  /** Nobody manages their own role, management never goes both ways, and it passes down the
      hierarchy. */
  lemma ManagementIsStrictOrder(a: string, b: string, c: string)
    ensures !CanManageUser(a, a)
    ensures CanManageUser(a, b) ==> !CanManageUser(b, a)
    ensures CanManageUser(a, b) && CanManageUser(b, c) ==> CanManageUser(a, c)
  {
  }

  /** A super admin manages every other role and every unknown role, but not another super admin;
      a role outside the hierarchy manages nobody. */
  lemma SuperAdminManagesOthers(role: string)
    ensures role != "super_admin" ==> CanManageUser("super_admin", role)
    ensures !CanManageUser("super_admin", "super_admin")
    ensures "nobody" !in RoleHierarchy && !CanManageUser("nobody", role)
  {
  }

  /** Any two known roles are ordered one way or the other. */
  lemma KnownRolesComparable(a: string, b: string)
    requires a in RoleHierarchy && b in RoleHierarchy && a != b
    ensures IsHigherRole(a, b) || IsHigherRole(b, a)
  {
    LevelsDistinct(a, b);
  }

  /** Who gets which module: user_management and bot_config only super_admin, mechanics_system
      moderators too, every other module guild and super admins, and a viewer nothing. */
  lemma ModuleAccessTable(role: string, m: string)
    ensures HasPermission(role, "user_management") <==> role == "super_admin"
    ensures HasPermission(role, "bot_config") <==> role == "super_admin"
    ensures HasPermission(role, "mechanics_system") <==> role in {"moderator", "guild_admin", "super_admin"}
    ensures m in ModulePermissions && m !in {"user_management", "bot_config", "mechanics_system"} ==>
      (HasPermission(role, m) <==> role in {"guild_admin", "super_admin"})
    ensures !HasPermission("viewer", m)
    ensures m in ModulePermissions ==> HasPermission("super_admin", m)
  {
  }

  /** Module access goes up the hierarchy: a role above one that may enter a module may enter it
      too. */
  lemma AccessUpwardClosed(low: string, high: string, m: string)
    requires HasPermission(low, m) && high in RoleHierarchy && Level(high) >= Level(low)
    ensures HasPermission(high, m)
  {
    ModuleAccessTable(low, m);
    ModuleAccessTable(high, m);
  }
}
