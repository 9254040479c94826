/**
 * The role gate: renders its children for a signed-in user whose role is
 * allowed, and otherwise the fallback (`fallback || null`).
 */
module RoleGate {
  import opened Wrappers
  import opened Js
  import opened Db
  import opened UseAuth

  /** `allowedRoles`: one role or a list of them. */
  datatype Allowed = Single(role: Role) | AnyOf(roles: seq<Role>)

  /** What the gate renders: its children, or a node that may be `null`. */
  datatype Rendered = Children | Node(node: Value)

  /** A single role is taken as the one-element list holding it. */
  function Normalised(allowed: Allowed): (roles: seq<Role>)
    ensures allowed.AnyOf? ==> roles == allowed.roles
    ensures allowed.Single? ==> |roles| == 1 && roles[0] == allowed.role
  {
    match allowed
    case Single(r) => [r]
    case AnyOf(rs) => rs
  }

  /** The user's role (a name in the client session) is one of the roles' names. */
  predicate Permitted(roles: seq<Role>, user: ClientUser) {
    exists i :: 0 <= i < |roles| && user.role == Some(RoleName(roles[i]))
  }

  function Gate(status: SessionStatus, user: Option<ClientUser>, allowed: Allowed, fallback: Value): (r: Rendered)
    ensures r == Children <==> status == Authenticated && user.Some? && Permitted(Normalised(allowed), user.value)
    ensures r != Children ==> r == Node(Or(fallback, Null))
  {
    var h := UseAuth.UseAuth(Options(false, "/login", NoRole), status, user);
    if !h.isAuthenticated || h.user.None? then Node(Or(fallback, Null))
    else
      var roles := Normalised(allowed);
      if !Permitted(roles, h.user.value) then Node(Or(fallback, Null))
      else Children
  }

  /** A single role behaves as the list holding only it. */
  lemma SingleIsSingletonList(status: SessionStatus, user: Option<ClientUser>, r: Role, fallback: Value)
    ensures Gate(status, user, Single(r), fallback) == Gate(status, user, AnyOf([r]), fallback)
  {
  }

  /** The empty list of roles lets nobody through. */
  lemma EmptyListNeverRenders(status: SessionStatus, user: Option<ClientUser>, fallback: Value)
    ensures Gate(status, user, AnyOf([]), fallback) != Children
  {
  }

  /** A signed-in user with a known role passes exactly when that role is listed. */
  lemma {:induction false} GateIsMembership(roles: seq<Role>, r: Role, fallback: Value)
    ensures Gate(Authenticated, Some(ClientUser(Some(RoleName(r)))), AnyOf(roles), fallback) == Children <==> r in roles
  {
    var user := ClientUser(Some(RoleName(r)));
    if Permitted(roles, user) {
      var i :| 0 <= i < |roles| && user.role == Some(RoleName(roles[i]));
      RoleNameRoundTrip(r, "");
      RoleNameRoundTrip(roles[i], "");
      assert roles[i] == r;
    }
    if r in roles {
      var i :| 0 <= i < |roles| && roles[i] == r;
      assert Permitted(roles, user);
    }
  }

  /** Without access, a falsy fallback renders nothing at all. */
  lemma FalsyFallbackIsNull(status: SessionStatus, user: Option<ClientUser>, allowed: Allowed, fallback: Value)
    requires !Truthy(fallback)
    requires Gate(status, user, allowed, fallback) != Children
    ensures Gate(status, user, allowed, fallback) == Node(Null)
  {
  }
}
