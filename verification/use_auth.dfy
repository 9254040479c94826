/**
 * The client-side authentication hook: the status flags derived from the
 * session status, the role check, and the redirect its effect issues.
 *
 * The router push is modelled as the returned `Redirect`; the current
 * pathname is a parameter, and its URL encoding in the query string is not
 * modelled.
 */
module UseAuth {
  import opened Wrappers

  datatype SessionStatus = Loading | Authenticated | Unauthenticated

  /** The user object of the client session: only its role is looked at. */
  datatype ClientUser = ClientUser(role: Option<string>)

  /** The `role` option: absent, one role name, or a list of them. */
  datatype RoleOption = NoRole | One(name: string) | Many(names: seq<string>)

  /** The hook's options after the defaults `required = false` and `redirectTo = "/login"`. */
  datatype Options = Options(required: bool, redirectTo: string, role: RoleOption)

  /** `options` as written by a caller, with the destructuring defaults applied to what is left out. */
  function WithDefaults(required: Option<bool>, redirectTo: Option<string>, role: RoleOption): (o: Options)
    ensures required.None? ==> !o.required
    ensures redirectTo.None? ==> o.redirectTo == "/login"
    ensures required.Some? ==> o.required == required.value
    ensures redirectTo.Some? ==> o.redirectTo == redirectTo.value
    ensures o.role == role
  {
    Options(required.GetOr(false), redirectTo.GetOr("/login"), role)
  }

  function IsAuthenticated(status: SessionStatus): bool {
    status == Authenticated
  }

  function IsLoading(status: SessionStatus): bool {
    status == Loading
  }

  /** The two flags never hold together, and both are false exactly when the status is unauthenticated. */
  lemma StatusFlagsExclusive(status: SessionStatus)
    ensures !(IsAuthenticated(status) && IsLoading(status))
    ensures !IsAuthenticated(status) && !IsLoading(status) <==> status == Unauthenticated
  {
  }

  /** `!role`: no role, or the empty role name; a list, even an empty one, is truthy. */
  predicate RoleGiven(role: RoleOption) {
    match role
    case NoRole => false
    case One(name) => name != ""
    case Many(_) => true
  }

  /** Whether the user's role name is listed. */
  predicate Listed(names: seq<string>, userRole: Option<string>) {
    userRole.Some? && exists i :: 0 <= i < |names| && names[i] == userRole.value
  }

  /** `checkRole`: passes without a role to check or without a user; else a list is checked by membership, a single name by equality. */
  function CheckRole(role: RoleOption, user: Option<ClientUser>): (r: bool)
    ensures !RoleGiven(role) || user.None? ==> r
    ensures role.Many? && user.Some? ==> (r <==> Listed(role.names, user.value.role))
    ensures role.One? && role.name != "" && user.Some? ==> (r <==> user.value.role == Some(role.name))
  {
    if !RoleGiven(role) || user.None? then true
    else match role
      case Many(names) => user.value.role.Some? && user.value.role.value in names
      case One(name) => user.value.role == Some(name)
  }

  /** A single non-empty role name is checked as the one-element list holding it. */
  lemma OneIsSingletonList(name: string, user: Option<ClientUser>)
    requires name != ""
    ensures CheckRole(One(name), user) == CheckRole(Many([name]), user)
  {
    if user.Some? && user.value.role == Some(name) {
      assert Listed([name], user.value.role) by { assert [name][0] == name; }
    }
  }

  /** An empty role name checks nothing, while the empty list lets nobody with a user through. */
  lemma EmptyRoleCases(user: ClientUser)
    ensures CheckRole(One(""), Some(user))
    ensures !CheckRole(Many([]), Some(user))
  {
  }

  /** What the hook returns (apart from the session object and its update function). */
  datatype Hook = Hook(user: Option<ClientUser>, status: SessionStatus, isAuthenticated: bool, isLoading: bool, hasRequiredRole: bool)

  function UseAuth(options: Options, status: SessionStatus, user: Option<ClientUser>): (h: Hook)
    ensures h.user == user && h.status == status
    ensures h.isAuthenticated <==> status == Authenticated
    ensures h.isLoading <==> status == Loading
    ensures h.hasRequiredRole == CheckRole(options.role, user)
  {
    Hook(user, status, IsAuthenticated(status), IsLoading(status), CheckRole(options.role, user))
  }

  /** The router push the effect makes, if any. */
  datatype Redirect =
    | NoRedirect
    /** To `<redirectTo>?callbackUrl=<pathname>`. */
    | ToLogin(target: string, callbackUrl: string)
    | ToDashboard

  /** The effect of one render: at most one push, the sign-in one first. */
  function Effect(options: Options, h: Hook, pathname: string): (r: Redirect)
    ensures h.isLoading ==> r == NoRedirect
    ensures r.ToLogin? <==> !h.isLoading && options.required && !h.isAuthenticated
    ensures r.ToLogin? ==> r.target == options.redirectTo && r.callbackUrl == pathname
    ensures r == ToDashboard <==> !h.isLoading && !(options.required && !h.isAuthenticated)
                                  && h.isAuthenticated && RoleGiven(options.role) && !h.hasRequiredRole
  {
    if h.isLoading then NoRedirect
    else if options.required && !h.isAuthenticated then ToLogin(options.redirectTo, pathname)
    else if h.isAuthenticated && RoleGiven(options.role) && !h.hasRequiredRole then ToDashboard
    else NoRedirect
  }

  /** The redirect of the hook for a session status and user. */
  function RedirectFor(options: Options, status: SessionStatus, user: Option<ClientUser>, pathname: string): Redirect {
    Effect(options, UseAuth(options, status, user), pathname)
  }

  /** A required sign-in goes to the configured page, by default `/login`, whatever role was asked for. */
  lemma SignInComesFirst(required: Option<bool>, redirectTo: Option<string>, role: RoleOption, user: Option<ClientUser>, pathname: string)
    requires required == Some(true)
    ensures RedirectFor(WithDefaults(required, redirectTo, role), Unauthenticated, user, pathname)
            == ToLogin(redirectTo.GetOr("/login"), pathname)
  {
  }

  /** A push to the dashboard means a signed-in user whose role is not among those asked for. */
  lemma DashboardMeansWrongRole(options: Options, status: SessionStatus, user: Option<ClientUser>, pathname: string)
    requires RedirectFor(options, status, user, pathname) == ToDashboard
    ensures status == Authenticated && user.Some?
    ensures options.role.Many? ==> !Listed(options.role.names, user.value.role)
    ensures options.role.One? ==> user.value.role != Some(options.role.name)
  {
  }

  /** Signed in without a user object, a role never causes a redirect. */
  lemma NoUserNoRoleRedirect(options: Options, pathname: string)
    ensures RedirectFor(options, Authenticated, None, pathname) == NoRedirect
  {
  }
}
