/** The route guard (`ProtectedRoute`): authentication, then the role list,
    then the required permission; the first check that fails decides. */
module ProtectedRoute {
  import opened Collections
  import opened Storage
  import opened AuthContext
  import opened RoleAccess

  /** What the guard renders. */
  datatype Outcome = RedirectToLogin(from: string) | RedirectToUnauthorized | Render

  /** The guard for a request of `location`; `allowedRoles` and
      `requiredPermission` are the route's props (an empty permission string
      is falsy and skips the check). `access` is what `useRoleAccess`
      returned for the same session. */
  function Guard(user: Option<User>, access: Access, location: string,
                 allowedRoles: Option<seq<string>>, requiredPermission: Option<string>): (o: Outcome)
    ensures user.None? <==> o == RedirectToLogin(location)
    ensures o.RedirectToLogin? ==> user.None?
    ensures user.Some? && allowedRoles.Some? && access.role !in allowedRoles.value ==> o == RedirectToUnauthorized
    ensures o == Render <==>
      user.Some? && (allowedRoles.None? || access.role in allowedRoles.value) &&
      (requiredPermission.None? || requiredPermission.value == "" ||
       (requiredPermission.value in access.permissions && access.permissions[requiredPermission.value].read))
  {
    if user.None? then RedirectToLogin(location)
    else if allowedRoles.Some? && access.role !in allowedRoles.value then RedirectToUnauthorized
    else if requiredPermission.Some? && requiredPermission.value != "" &&
            (requiredPermission.value !in access.permissions || !access.permissions[requiredPermission.value].read)
    then RedirectToUnauthorized
    else Render
  }

  /** The guard as mounted: the permissions are those the session resolves to. */
  function GuardSession(user: Option<User>, stored: Json, parse: string -> Option<Json>, location: string,
                        allowedRoles: Option<seq<string>>, requiredPermission: Option<string>): Outcome
  {
    Guard(user, UseRoleAccess(user, stored, parse), location, allowedRoles, requiredPermission)
  }

  /** Authentication is checked first: without a session no role list or
      permission matters. */
  lemma LoginCheckComesFirst(access: Access, location: string,
                             allowedRoles: Option<seq<string>>, requiredPermission: Option<string>)
    ensures Guard(None, access, location, allowedRoles, requiredPermission) == RedirectToLogin(location)
  {
  }

  /** `view` alone does not open a route: `read` is required. */
  lemma ViewAloneIsNotEnough(user: User, access: Access, location: string, moduleName: string)
    requires moduleName != "" && moduleName in access.permissions
    requires !access.permissions[moduleName].read && access.permissions[moduleName].view
    ensures Guard(Some(user), access, location, None, Some(moduleName)) == RedirectToUnauthorized
  {
  }

  /** A route without role list or permission renders for every signed-in user. */
  lemma UngatedRouteRenders(user: User, access: Access, location: string)
    ensures Guard(Some(user), access, location, None, None) == Render
  {
  }

  /** The role compared with the list is the resolved one: a user with an
      empty role passes a list that names `customer`. */
  lemma EmptyRoleChecksAsCustomer(user: User, stored: Json, parse: string -> Option<Json>, location: string)
    requires user.role == ""
    ensures GuardSession(Some(user), stored, parse, location, Some(["customer"]), None) == Render
  {
  }

  /** Without server permissions, a support agent is kept out of payments,
      which the support defaults do not let it read, while a customer is let
      in, because the customer defaults grant read-only payments. */
  lemma PaymentsRefusedToSupport(user: User, parse: string -> Option<Json>, location: string)
    requires user.role == "support"
    ensures GuardSession(Some(user), JNull, parse, location, None, Some("canAccessPayments")) == RedirectToUnauthorized
  {
    var d := DefaultRolePermissions(Support);
    assert d["canAccessPayments"] == NoAccessCrud;
    assert ParseRole(ResolvedRole(Some(user))) == Some(Support);
    MalformedPayloadKeepsDefaults(Some(user), JNull, parse);
    assert UseRoleAccess(Some(user), JNull, parse) == Access("support", d);
  }

  lemma PaymentsReadableByCustomer(user: User, parse: string -> Option<Json>, location: string)
    requires user.role == "customer"
    ensures GuardSession(Some(user), JNull, parse, location, None, Some("canAccessPayments")) == Render
  {
    var d := DefaultRolePermissions(Customer);
    assert d["canAccessPayments"] == ReadOnlyCrud;
    assert ParseRole(ResolvedRole(Some(user))) == Some(Customer);
    MalformedPayloadKeepsDefaults(Some(user), JNull, parse);
    assert UseRoleAccess(Some(user), JNull, parse) == Access("customer", d);
  }
}
