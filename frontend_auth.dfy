/** The admin panel's client-side access helpers: questions asked of the profile and the
    permission summary the server sent. */
module FrontendAuth {
  import opened Wrappers
  import ABR = AdminBunkerRoutes

  /** The parts of a UserProfile the helpers read; `guilds` may be missing at run time. */
  datatype UserProfile = UserProfile(id: string, role: string, guilds: Option<seq<string>>)

  /** UserPermissions: a flag per permission and the list of modules. */
  datatype UserPermissions = UserPermissions(user: string, role: string, permissions: map<string, bool>,
                                             modules: seq<string>)

  /** hasPermission: the flag is present and true; a missing flag reads as false. */
  function HasPermission(p: UserPermissions, permission: string): (ok: bool)
    ensures ok <==> permission in p.permissions && p.permissions[permission]
    ensures permission !in p.permissions ==> !ok
  {
    permission in p.permissions && p.permissions[permission] == true
  }

  /** canAccessModule: the module is listed. */
  function CanAccessModule(p: UserPermissions, moduleName: string): (ok: bool)
    ensures ok <==> exists i :: 0 <= i < |p.modules| && p.modules[i] == moduleName
  {
    moduleName in p.modules
  }

  /** getAccessibleGuilds: the profile's guilds, or none when the list is missing. */
  function GetAccessibleGuilds(u: UserProfile): (gs: seq<string>)
    ensures u.guilds.Some? ==> gs == u.guilds.value
    ensures u.guilds.None? ==> gs == []
  {
    u.guilds.GetOr([])
  }

  /** hasGuildAccess: a super admin always; anyone else when the guild is listed. The list is read
      without the guard getAccessibleGuilds has, so a missing list throws a TypeError. */
  function HasGuildAccess(u: UserProfile, guild: string): (r: Result<bool, string>)
    ensures u.role == "super_admin" ==> r == Ok(true)
    ensures u.role != "super_admin" && u.guilds.Some? ==> r == Ok(guild in u.guilds.value)
    ensures u.role != "super_admin" && u.guilds.None? ==> r == Err("TypeError")
  {
    if u.role == "super_admin" then Ok(true)
    else if u.guilds.None? then Err("TypeError")
    else Ok(guild in u.guilds.value)
  }

  /** Every guild getAccessibleGuilds lists passes hasGuildAccess. */
  lemma ListedGuildsAccessible(u: UserProfile, guild: string)
    requires guild in GetAccessibleGuilds(u)
    ensures HasGuildAccess(u, guild) == Ok(true)
  {
  }

  /** For a profile with a guild list, the client's answer is the server's guild check: access
      exactly when the server would not refuse with 403. */
  lemma ClientAgreesWithServer(u: UserProfile, guild: string)
    requires u.guilds.Some?
    ensures HasGuildAccess(u, guild).Ok?
    ensures HasGuildAccess(u, guild).value <==> ABR.CheckGuildAccess(ABR.Caller(u.id, u.role, u.guilds.value), guild).None?
  {
  }
}
