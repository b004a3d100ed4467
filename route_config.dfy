/** The static navigation data shared by the sidebar and the routes: the
    dashboard menu entries and the table of role aliases. */
module RouteConfig {
  import opened Collections
  import RoleAccess

  /** One dashboard menu entry; the icon is left out. A `null` permission
      means the entry is not gated; an absent role list means every role. */
  datatype MenuItem = MenuItem(title: string, url: string, permission: Option<string>, allowedRoles: Option<seq<string>>)

  function Gated(title: string, url: string, permission: string, roles: seq<string>): MenuItem
  {
    MenuItem(title, url, Some(permission), Some(roles))
  }

  /** `MenuItems`, in display order. */
  const MenuItems: seq<MenuItem> := [
    MenuItem("Overview", "/dashboard", None, None),
    Gated("Shops", "/dashboard/shops", "canAccessShops", ["admin", "manager", "shop_owner"]),
    Gated("Products", "/dashboard/products", "canAccessProducts", ["admin", "manager", "shop_owner"]),
    Gated("Orders", "/dashboard/orders", "canAccessOrders", ["admin", "manager", "delivery_agent"]),
    Gated("Users", "/dashboard/users", "canAccessUsers", ["admin", "manager", "support"]),
    Gated("Payments", "/dashboard/payments", "canAccessPayments", ["admin"]),
    Gated("Coupons", "/dashboard/coupons", "canAccessSettings", ["admin"]),
    Gated("Delivery", "/dashboard/delivery", "canAccessDelivery", ["admin", "delivery_agent"]),
    Gated("Map", "/dashboard/map", "canAccessMap", ["admin", "delivery_agent"]),
    Gated("Tickets", "/dashboard/tickets", "canAccessTickets", ["admin", "support"]),
    Gated("Analytics", "/dashboard/analytics", "canAccessAnalytics", ["admin"]),
    Gated("Notifications", "/dashboard/notifications", "canAccessNotifications", ["admin", "support", "manager"]),
    Gated("Logs", "/dashboard/logs", "canAccessLogs", ["admin"]),
    Gated("Settings", "/dashboard/settings", "canAccessSettings", ["admin"])
  ]

  /** `accessRole`: short role aliases to role strings. */
  const AccessRole: map<string, string> := map[
    "customer" := "customer", "admin" := "admin", "manager" := "manager",
    "shop" := "shop_owner", "delivery" := "delivery_agent", "support" := "support"]

  /** Fourteen entries; Overview, the first, is the only ungated one; every
      gated entry names a module of the default table and lists roles. */
  lemma MenuItemsShape()
    ensures |MenuItems| == 14
    ensures MenuItems[0].title == "Overview" && MenuItems[0].permission.None?
    ensures forall i :: 0 < i < |MenuItems| ==>
      MenuItems[i].permission.Some? && MenuItems[i].permission.value in RoleAccess.KnownModules
      && MenuItems[i].allowedRoles.Some?
  {
  }

  /** Coupons and Settings are both gated by `canAccessSettings` and
      reserved for `admin`. */
  lemma CouponsAndSettingsShareAGate()
    ensures MenuItems[6].title == "Coupons" && MenuItems[13].title == "Settings"
    ensures MenuItems[6].permission == MenuItems[13].permission == Some("canAccessSettings")
    ensures MenuItems[6].allowedRoles == MenuItems[13].allowedRoles == Some(["admin"])
  {
  }

  /** Every menu link lies under `/dashboard`. */
  lemma UrlsUnderDashboard()
    ensures forall i :: 0 <= i < |MenuItems| ==> "/dashboard" <= MenuItems[i].url
  {
  }

  /** Every role an entry lists is one of the six roles, and `admin` is
      listed wherever a list is given. */
  lemma AllowedRolesAreRoles()
    ensures forall i, j ::
      0 <= i < |MenuItems| && MenuItems[i].allowedRoles.Some? && 0 <= j < |MenuItems[i].allowedRoles.value| ==>
        RoleAccess.ParseRole(MenuItems[i].allowedRoles.value[j]).Some?
    ensures forall i :: 0 <= i < |MenuItems| && MenuItems[i].allowedRoles.Some? ==>
      "admin" in MenuItems[i].allowedRoles.value
  {
  }

  /** `shop` and `delivery` are aliases; the other keys name themselves;
      the six values are exactly the six roles. */
  lemma AccessRoleAliases()
    ensures AccessRole["shop"] == "shop_owner" && AccessRole["delivery"] == "delivery_agent"
    ensures forall k :: k in AccessRole && k != "shop" && k != "delivery" ==> AccessRole[k] == k
    ensures forall r: RoleAccess.Role :: exists k :: k in AccessRole && AccessRole[k] == RoleAccess.RoleName(r)
    ensures forall k :: k in AccessRole ==> RoleAccess.ParseRole(AccessRole[k]).Some?
  {
    forall r: RoleAccess.Role
      ensures exists k :: k in AccessRole && AccessRole[k] == RoleAccess.RoleName(r)
    {
      match r
      case Admin => assert AccessRole["admin"] == "admin";
      case Manager => assert AccessRole["manager"] == "manager";
      case ShopOwner => assert AccessRole["shop"] == "shop_owner";
      case DeliveryAgent => assert AccessRole["delivery"] == "delivery_agent";
      case Support => assert AccessRole["support"] == "support";
      case Customer => assert AccessRole["customer"] == "customer";
    }
  }
}
