/** The user-management request bodies of the admin panel: the Discord id and permission-name
    checks, and the field constraints of role, user and audit-filter bodies. A constraint is a
    predicate on the field as sent; the regular expressions are written out character by
    character. */
module UsersModels {
  import opened Wrappers
  import opened Text
  import SA = SuperadminModels

  /** validate_discord_user_id: all digits, 17 to 20 of them. */
  function ValidateDiscordUserId(id: string): (ok: bool)
    ensures ok ==> 17 <= |id| <= 20 && forall i :: 0 <= i < |id| ==> '0' <= id[i] <= '9'
    ensures !ok ==> |id| < 17 || |id| > 20 || exists i :: 0 <= i < |id| && !('0' <= id[i] <= '9')
  {
    IsDigits(id) && |id| in {17, 18, 19, 20}
  }

  /** A valid Discord id is also long enough for the super-admin panel's guild-id check. */
  lemma DiscordIdIsSnowflake(id: string)
    requires ValidateDiscordUserId(id)
    ensures SA.ValidateGuildId(id) == Ok(id)
  {
  }

  /** UserCreate.discord_user_id only bounds the length, so it takes ids that
      validate_discord_user_id refuses. */
  lemma LengthCheckIsWeaker()
    ensures var id := "abcdefghijklmnopq"; UserIdFieldOk(id) && !ValidateDiscordUserId(id)
  {
    var id := "abcdefghijklmnopq";
    assert !IsDigit(id[0]);
  }

  /** One part of a permission name: alphabetic, or holding an underscore. */
  predicate PartOk(part: string)
  {
    IsAlpha(part) || '_' in part
  }

  /** validate_permission_name: exactly two '.'-separated parts, each PartOk. */
  function ValidatePermissionName(name: string): (ok: bool)
    ensures ok ==> |Split(name, '.')| == 2
  {
    var parts := Split(name, '.');
    |parts| == 2 && PartOk(parts[0]) && PartOk(parts[1])
  }

  /** The name module.action is valid exactly when both halves are, for halves without dots. */
  lemma PermissionNameOfParts(moduleName: string, action: string)
    requires '.' !in moduleName && '.' !in action
    ensures ValidatePermissionName(moduleName + "." + action) <==> PartOk(moduleName) && PartOk(action)
  {
    SplitFree(action, '.');
    SplitPrefix(moduleName, action, '.');
    assert moduleName + "." + action == moduleName + ['.'] + action;
  }

  /** Every valid name is module.action with dot-free halves that pass the part check. */
  lemma {:induction false} PermissionNameHalves(name: string)
    requires ValidatePermissionName(name)
    ensures var parts := Split(name, '.');
      name == parts[0] + "." + parts[1] && '.' !in parts[0] && '.' !in parts[1]
      && PartOk(parts[0]) && PartOk(parts[1])
  {
    var parts := Split(name, '.');
    JoinSplit(name, '.');
    assert Join(parts, '.') == parts[0] + ['.'] + Join(parts[1..], '.');
  }

  /** A name without a dot is refused. */
  lemma NoDotRefused(name: string)
    requires '.' !in name
    ensures !ValidatePermissionName(name)
  {
    SplitFree(name, '.');
  }

  /** A name with two dots is refused, whatever its parts. */
  lemma TwoDotsRefused(a: string, b: string, c: string)
    requires '.' !in a && '.' !in b && '.' !in c
    ensures !ValidatePermissionName(a + "." + b + "." + c)
  {
    SplitFree(c, '.');
    SplitPrefix(b, c, '.');
    SplitPrefix(a, b + "." + c, '.');
    assert a + "." + b + "." + c == a + ['.'] + (b + ['.'] + c);
  }

  /** A name of two alphabetic halves passes. */
  lemma AlphabeticNamePasses(moduleName: string, action: string)
    requires IsAlpha(moduleName) && IsAlpha(action)
    ensures ValidatePermissionName(moduleName + "." + action)
  {
    PermissionNameOfParts(moduleName, action);
  }

  /** A half with an underscore passes whatever else it holds. */
  lemma UnderscoreHalfPasses(moduleName: string, action: string)
    requires '.' !in moduleName && '.' !in action && '_' in moduleName && '_' in action
    ensures ValidatePermissionName(moduleName + "." + action)
  {
    PermissionNameOfParts(moduleName, action);
  }

  /** RoleCreate.role_name: 3 to 50 characters, each a lower-case letter or '_'. */
  predicate RoleNameOk(s: string)
  {
    3 <= |s| <= 50 && forall i :: 0 <= i < |s| ==> 'a' <= s[i] <= 'z' || s[i] == '_'
  }

  predicate IsHexDigit(c: char)
  {
    '0' <= c <= '9' || 'a' <= c <= 'f' || 'A' <= c <= 'F'
  }

  /** RoleCreate.color and RoleUpdate.color: '#' and six hex digits. */
  predicate ColorOk(s: string)
  {
    |s| == 7 && s[0] == '#' && forall i :: 1 <= i < 7 ==> IsHexDigit(s[i])
  }

  const DefaultColor: string := "#6366f1"

  datatype RoleCreate = RoleCreate(roleName: string, displayName: string, description: Option<string>,
                                   color: string, permissionIds: seq<int>)

  /** Building a RoleCreate: each field's constraint is checked, an omitted colour is the default
      and an omitted permission list is empty. */
  function NewRoleCreate(roleName: string, displayName: string, description: Option<string>,
                         color: Option<string>, permissionIds: Option<seq<int>>): (r: Option<RoleCreate>)
    ensures r.Some? <==> RoleNameOk(roleName) && 3 <= |displayName| <= 100
                         && (description.None? || |description.value| <= 500)
                         && (color.None? || ColorOk(color.value))
    ensures r.Some? ==> ColorOk(r.value.color) && RoleNameOk(r.value.roleName)
    ensures r.Some? && color.None? ==> r.value.color == DefaultColor
    ensures r.Some? && permissionIds.None? ==> r.value.permissionIds == []
  {
    if RoleNameOk(roleName) && 3 <= |displayName| <= 100 && (description.None? || |description.value| <= 500)
       && (color.None? || ColorOk(color.value))
    then
      assert ColorOk(DefaultColor);
      Some(RoleCreate(roleName, displayName, description, color.GetOr(DefaultColor), permissionIds.GetOr([])))
    else None
  }

  /** A role name never holds an upper-case letter, a digit or a dot. */
  lemma RoleNameAlphabet(s: string, i: int)
    requires RoleNameOk(s) && 0 <= i < |s|
    ensures !('A' <= s[i] <= 'Z') && !IsDigit(s[i]) && s[i] != '.'
  {
  }

  /** UserCreate.discord_user_id: 17 to 20 characters. */
  predicate UserIdFieldOk(s: string)
  {
    17 <= |s| <= 20
  }

  /** UserCreate.discord_discriminator: four digits. */
  predicate DiscriminatorOk(s: string)
  {
    |s| == 4 && IsDigits(s)
  }

  /** UserCreate.email: some non-'@' characters, '@', then a non-'@' text holding a '.' with
      something on each side of it. */
  predicate EmailOk(s: string)
  {
    exists at, dot :: 0 < at && at + 1 < dot < |s| - 1 && s[at] == '@' && s[dot] == '.'
                      && forall i :: 0 <= i < |s| && i != at ==> s[i] != '@'
  }

  /** A well-formed email has exactly one '@'. */
  lemma EmailHasOneAt(s: string, i: int, j: int)
    requires EmailOk(s) && 0 <= i < |s| && 0 <= j < |s| && s[i] == '@' && s[j] == '@'
    ensures i == j
  {
  }

  datatype UserCreate = UserCreate(discordUserId: string, username: string, discriminator: Option<string>,
                                   email: Option<string>, displayName: Option<string>, roleId: int)

  /** Building a UserCreate: each field's constraint is checked. */
  function NewUserCreate(u: UserCreate): (r: Option<UserCreate>)
    ensures r.Some? <==> && UserIdFieldOk(u.discordUserId) && 2 <= |u.username| <= 32
                         && (u.discriminator.None? || DiscriminatorOk(u.discriminator.value))
                         && (u.email.None? || EmailOk(u.email.value))
                         && (u.displayName.None? || |u.displayName.value| <= 100)
                         && u.roleId > 0
    ensures r.Some? ==> r.value == u
  {
    if && UserIdFieldOk(u.discordUserId) && 2 <= |u.username| <= 32
       && (u.discriminator.None? || DiscriminatorOk(u.discriminator.value))
       && (u.email.None? || EmailOk(u.email.value))
       && (u.displayName.None? || |u.displayName.value| <= 100)
       && u.roleId > 0
    then Some(u) else None
  }

  /** The actions an audit entry records. */
  datatype AuditAction = Create | Update | Delete | Login | Logout | View | Export

  /** The enum's wire value. */
  function ActionText(a: AuditAction): string
  {
    match a
    case Create => "create"
    case Update => "update"
    case Delete => "delete"
    case Login => "login"
    case Logout => "logout"
    case View => "view"
    case Export => "export"
  }

  /** The enum member a sent value names, if any. */
  function ParseAuditAction(s: string): (r: Option<AuditAction>)
    ensures r.Some? ==> ActionText(r.value) == s
  {
    if s == "create" then Some(Create)
    else if s == "update" then Some(Update)
    else if s == "delete" then Some(Delete)
    else if s == "login" then Some(Login)
    else if s == "logout" then Some(Logout)
    else if s == "view" then Some(View)
    else if s == "export" then Some(Export)
    else None
  }

  /** Every action's wire value is read back as that action, so exactly the seven values parse. */
  lemma ActionTextRoundTrip(a: AuditAction)
    ensures ParseAuditAction(ActionText(a)) == Some(a)
  {
  }

  datatype AuditLogFilter = AuditLogFilter(userId: Option<int>, action: Option<AuditAction>, resourceType: Option<string>,
                                           limit: int, offset: int)

  /** Building an AuditLogFilter: the action, when sent, is one of the enum's values, the limit is
      at most 1000 (50 when omitted) and the offset not negative (0 when omitted). */
  function NewAuditLogFilter(userId: Option<int>, action: Option<string>, resourceType: Option<string>,
                             limit: Option<int>, offset: Option<int>): (r: Option<AuditLogFilter>)
    ensures r.Some? <==> && (action.None? || exists a :: ActionText(a) == action.value)
                         && (limit.None? || limit.value <= 1000) && (offset.None? || offset.value >= 0)
    ensures r.Some? ==> r.value.limit <= 1000 && r.value.offset >= 0
    ensures r.Some? ==> r.value.limit == (if limit.Some? then limit.value else 50)
                        && r.value.offset == (if offset.Some? then offset.value else 0)
    ensures r.Some? ==> && r.value.action.Some? == action.Some?
                        && (action.Some? ==> ActionText(r.value.action.value) == action.value)
                        && r.value.userId == userId && r.value.resourceType == resourceType
  {
    var parsed := if action.Some? then ParseAuditAction(action.value) else None;
    if action.Some? && parsed.None? then
      assert forall a :: ActionText(a) != action.value by {
        forall a ensures ActionText(a) != action.value {
          ActionTextRoundTrip(a);
        }
      }
      None
    else if (limit.None? || limit.value <= 1000) && (offset.None? || offset.value >= 0)
    then Some(AuditLogFilter(userId, parsed, resourceType, limit.GetOr(50), offset.GetOr(0)))
    else None
  }

  /** The limit has no lower bound: zero or a negative limit is accepted. */
  lemma AuditLimitUnboundedBelow()
    ensures NewAuditLogFilter(None, None, None, Some(-1), None).Some?
    ensures NewAuditLogFilter(None, None, None, None, None) == Some(AuditLogFilter(None, None, None, 50, 0))
  {
  }
}
