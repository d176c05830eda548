/** The admin panel's client state: the authentication store (profile, permissions, flags and
    the API client's token) and the UI store (sidebar flags and the notification list). The
    results of API calls, random ids and the clock are parameters. */
module FrontendStore {
  import opened Wrappers
  import FA = FrontendAuth

  /** `error.message || fallback`: an empty message gives the fallback. */
  function ErrorText(message: string, fallback: string): (t: string)
    ensures message != "" ==> t == message
    ensures message == "" ==> t == fallback
  {
    if message != "" then message else fallback
  }

  /** What AuthAPI.login answers: the profile and the access token, or an error message. */
  datatype LoginAnswer = LoginAnswer(user: FA.UserProfile, accessToken: string)

  class AuthStore {
    var user: Option<FA.UserProfile>
    var permissions: Option<FA.UserPermissions>
    var isAuthenticated: bool
    var isLoading: bool
    var error: Option<string>
    /** The token the API client holds. */
    var token: Option<string>

    /** An authenticated store holds a profile and permissions. */
    ghost predicate Valid()
      reads this
    {
      isAuthenticated ==> user.Some? && permissions.Some?
    }

    constructor (storedToken: Option<string>)
      ensures user.None? && permissions.None? && !isAuthenticated && !isLoading && error.None?
      ensures token == storedToken && Valid()
    {
      user, permissions, isAuthenticated, isLoading, error := None, None, false, false, None;
      token := storedToken;
    }

    /** The state every failure and every logout leaves. */
    predicate SignedOut()
      reads this
    {
      user.None? && permissions.None? && !isAuthenticated && !isLoading
    }

    /** login: the token is kept as soon as login answers; when the permissions also arrive the
        store is signed in, otherwise it is signed out with the message and the error is thrown
        again (returned here). */
    method Login(answer: Result<LoginAnswer, string>, perms: Result<FA.UserPermissions, string>)
      returns (thrown: Option<string>)
      modifies this
      ensures Valid()
      ensures answer.Ok? ==> token == Some(answer.value.accessToken)
      ensures answer.Err? ==> token == old(token)
      ensures thrown.None? <==> answer.Ok? && perms.Ok?
      ensures thrown.None? ==> && user == Some(answer.value.user) && permissions == Some(perms.value)
                               && isAuthenticated && !isLoading && error.None?
      ensures thrown.Some? ==> SignedOut() && error == Some(ErrorText(thrown.value, "Login failed"))
      ensures answer.Err? ==> thrown == Some(answer.error)
      ensures answer.Ok? && perms.Err? ==> thrown == Some(perms.error)
    {
      isLoading, error := true, None;
      if answer.Err? {
        user, permissions, isAuthenticated, isLoading := None, None, false, false;
        error := Some(ErrorText(answer.error, "Login failed"));
        return Some(answer.error);
      }
      token := Some(answer.value.accessToken);
      if perms.Err? {
        user, permissions, isAuthenticated, isLoading := None, None, false, false;
        error := Some(ErrorText(perms.error, "Login failed"));
        return Some(perms.error);
      }
      user, permissions, isAuthenticated, isLoading, error := Some(answer.value.user), Some(perms.value), true, false, None;
      thrown := None;
    }

    /** logout: the server is told when there is a token, and the token is dropped only when
        that call succeeds; the state is signed out whatever happens. */
    method Logout(apiFails: bool)
      modifies this
      ensures Valid() && SignedOut() && error.None?
      ensures old(token).Some? && !apiFails ==> token.None?
      ensures old(token).None? || apiFails ==> token == old(token)
    {
      if token.Some? && !apiFails {
        token := None;
      }
      user, permissions, isAuthenticated, isLoading, error := None, None, false, false, None;
    }

    /** loadUser: without a token only isAuthenticated is cleared and nothing is asked of the
        server; otherwise the profile and permissions are fetched, and a failure drops the token
        and signs out with the message. */
    method LoadUser(profile: Result<FA.UserProfile, string>, perms: Result<FA.UserPermissions, string>)
      modifies this
      ensures Valid() || old(token).None?
      ensures old(token).None? ==> && !isAuthenticated && token.None?
                                   && user == old(user) && permissions == old(permissions)
                                   && isLoading == old(isLoading) && error == old(error)
      ensures old(token).Some? && profile.Ok? && perms.Ok? ==>
        && user == Some(profile.value) && permissions == Some(perms.value) && isAuthenticated
        && !isLoading && error.None? && token == old(token)
      ensures old(token).Some? && profile.Err? ==>
        SignedOut() && token.None? && error == Some(ErrorText(profile.error, "Failed to load user"))
      ensures old(token).Some? && profile.Ok? && perms.Err? ==>
        SignedOut() && token.None? && error == Some(ErrorText(perms.error, "Failed to load user"))
    {
      if token.None? {
        isAuthenticated := false;
        return;
      }
      isLoading, error := true, None;
      if profile.Err? || perms.Err? {
        var message := if profile.Err? then profile.error else perms.error;
        token := None;
        user, permissions, isAuthenticated, isLoading := None, None, false, false;
        error := Some(ErrorText(message, "Failed to load user"));
        return;
      }
      user, permissions, isAuthenticated, isLoading, error := Some(profile.value), Some(perms.value), true, false, None;
    }

    method ClearError()
      modifies this
      ensures error.None?
      ensures user == old(user) && permissions == old(permissions) && isAuthenticated == old(isAuthenticated)
      ensures isLoading == old(isLoading) && token == old(token)
    {
      error := None;
    }

    method SetLoading(loading: bool)
      modifies this
      ensures isLoading == loading
      ensures user == old(user) && permissions == old(permissions) && isAuthenticated == old(isAuthenticated)
      ensures error == old(error) && token == old(token)
    {
      isLoading := loading;
    }

    /** hasPermission: false without permissions. */
    function HasPermission(permission: string): (ok: bool)
      reads this
      ensures permissions.None? ==> !ok
      ensures permissions.Some? ==> ok == FA.HasPermission(permissions.value, permission)
    {
      if permissions.Some? then FA.HasPermission(permissions.value, permission) else false
    }

    /** canAccessModule: false without permissions. */
    function CanAccessModule(moduleName: string): (ok: bool)
      reads this
      ensures permissions.None? ==> !ok
      ensures permissions.Some? ==> ok == FA.CanAccessModule(permissions.value, moduleName)
    {
      if permissions.Some? then FA.CanAccessModule(permissions.value, moduleName) else false
    }

    /** hasGuildAccess: false without a profile. */
    function HasGuildAccess(guild: string): (r: Result<bool, string>)
      reads this
      ensures user.None? ==> r == Ok(false)
      ensures user.Some? ==> r == FA.HasGuildAccess(user.value, guild)
    {
      if user.Some? then FA.HasGuildAccess(user.value, guild) else Ok(false)
    }
  }

  /** A signed-out store answers no to every helper. */
  lemma SignedOutDeniesAll(s: AuthStore, permission: string, moduleName: string, guild: string)
    requires s.SignedOut()
    ensures !s.HasPermission(permission) && !s.CanAccessModule(moduleName) && s.HasGuildAccess(guild) == Ok(false)
  {
  }

  datatype Notification = Notification(id: string, kind: string, title: string, message: string,
                                       timestamp: int, persistent: bool)

  /** The list without the notifications of that id, the others in their order. */
  function Without(ns: seq<Notification>, id: string): (r: seq<Notification>)
    ensures |r| <= |ns|
    ensures forall i :: 0 <= i < |r| ==> r[i].id != id
    ensures forall n :: n in r <==> n in ns && n.id != id
  {
    if ns == [] then []
    else
      var rest := Without(ns[..|ns| - 1], id);
      var last := ns[|ns| - 1];
      assert ns == ns[..|ns| - 1] + [last];
      if last.id == id then rest else rest + [last]
  }

  /** Removing distributes over a concatenation, so the kept notifications stay in order. */
  lemma {:induction false} WithoutAppend(a: seq<Notification>, b: seq<Notification>, id: string)
    ensures Without(a + b, id) == Without(a, id) + Without(b, id)
  {
    if b != [] {
      var b' := b[..|b| - 1];
      assert (a + b)[..|a + b| - 1] == a + b';
      WithoutAppend(a, b', id);
    } else {
      assert a + b == a;
    }
  }

  /** A list with no notification of that id is left as it is. */
  lemma {:induction false} WithoutAbsent(ns: seq<Notification>, id: string)
    requires forall i :: 0 <= i < |ns| ==> ns[i].id != id
    ensures Without(ns, id) == ns
  {
    if ns != [] {
      WithoutAbsent(ns[..|ns| - 1], id);
    }
  }

  /** Removing a notification just added, under an id no other one has, gives back the list
      before the add. */
  lemma AddThenRemove(ns: seq<Notification>, n: Notification)
    requires forall i :: 0 <= i < |ns| ==> ns[i].id != n.id
    ensures Without(ns + [n], n.id) == ns
  {
    WithoutAppend(ns, [n], n.id);
    WithoutAbsent(ns, n.id);
    assert Without([n], n.id) == [];
  }

  class UIStore {
    var sidebarOpen: bool
    var sidebarCollapsed: bool
    var notifications: seq<Notification>
    var globalLoading: bool

    constructor ()
      ensures sidebarOpen && !sidebarCollapsed && notifications == [] && !globalLoading
    {
      sidebarOpen, sidebarCollapsed, notifications, globalLoading := true, false, [], false;
    }

    /** toggleSidebar: the flag is negated, so two toggles restore it. */
    method ToggleSidebar()
      modifies this
      ensures sidebarOpen == !old(sidebarOpen)
      ensures sidebarCollapsed == old(sidebarCollapsed) && notifications == old(notifications)
      ensures globalLoading == old(globalLoading)
    {
      sidebarOpen := !sidebarOpen;
    }

    method SetSidebarOpen(open: bool)
      modifies this
      ensures sidebarOpen == open
      ensures sidebarCollapsed == old(sidebarCollapsed) && notifications == old(notifications)
      ensures globalLoading == old(globalLoading)
    {
      sidebarOpen := open;
    }

    method ToggleSidebarCollapse()
      modifies this
      ensures sidebarCollapsed == !old(sidebarCollapsed)
      ensures sidebarOpen == old(sidebarOpen) && notifications == old(notifications)
      ensures globalLoading == old(globalLoading)
    {
      sidebarCollapsed := !sidebarCollapsed;
    }

    /** addNotification: one entry with the given id and timestamp goes at the end. */
    method AddNotification(kind: string, title: string, message: string, persistent: bool, id: string, now: int)
      returns (n: Notification)
      modifies this
      ensures n == Notification(id, kind, title, message, now, persistent)
      ensures notifications == old(notifications) + [n]
      ensures sidebarOpen == old(sidebarOpen) && sidebarCollapsed == old(sidebarCollapsed)
      ensures globalLoading == old(globalLoading)
    {
      n := Notification(id, kind, title, message, now, persistent);
      notifications := notifications + [n];
    }

    /** removeNotification: every entry of that id goes, the rest keep their order. */
    method RemoveNotification(id: string)
      modifies this
      ensures notifications == Without(old(notifications), id)
      ensures sidebarOpen == old(sidebarOpen) && sidebarCollapsed == old(sidebarCollapsed)
      ensures globalLoading == old(globalLoading)
    {
      notifications := Without(notifications, id);
    }

    method ClearNotifications()
      modifies this
      ensures notifications == []
      ensures sidebarOpen == old(sidebarOpen) && sidebarCollapsed == old(sidebarCollapsed)
      ensures globalLoading == old(globalLoading)
    {
      notifications := [];
    }

    method SetGlobalLoading(loading: bool)
      modifies this
      ensures globalLoading == loading
      ensures sidebarOpen == old(sidebarOpen) && sidebarCollapsed == old(sidebarCollapsed)
      ensures notifications == old(notifications)
    {
      globalLoading := loading;
    }
  }
}
