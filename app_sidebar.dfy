/** The dashboard sidebar: its own copy of the menu entries and the filter
    that decides which entries the resolved role and permissions show. */
module AppSidebar {
  import opened Collections
  import opened RouteConfig
  import opened RoleAccess
  import opened AuthContext
  import opened Storage

  /** `allMenuItems`, the sidebar's copy of the menu. */
  const AllMenuItems: seq<MenuItem> := [
    MenuItem("Overview", "/dashboard", None, None),
    Gated("Shops", "/dashboard/shops", "canAccessShops", ["admin", "manager", "shop_owner"]),
    Gated("Products", "/dashboard/products", "canAccessProducts", ["admin", "manager", "shop_owner"]),
    Gated("Orders", "/dashboard/orders", "canAccessOrders", ["admin", "manager", "delivery_agent"]),
    Gated("Users", "/dashboard/users", "canAccessUsers", ["admin", "manager", "support"]),
    Gated("Payments", "/dashboard/payments", "canAccessPayments", ["admin"]),
    Gated("Coupons", "/dashboard/coupons", "canAccessSettings", ["admin"]),
    Gated("Delivery", "/dashboard/delivery", "canAccessDelivery", ["admin", "delivery_agent"]),
    Gated("Map", "/dashboard/map", "canAccessMap", ["admin", "delivery_agent"]),
    Gated("Tickets", "/dashboard/tickets", "canAccessTickets", ["admin", "support"]),
    Gated("Analytics", "/dashboard/analytics", "canAccessAnalytics", ["admin"]),
    Gated("Notifications", "/dashboard/notifications", "canAccessNotifications", ["admin", "support", "manager"]),
    Gated("Logs", "/dashboard/logs", "canAccessLogs", ["admin"]),
    Gated("Settings", "/dashboard/settings", "canAccessSettings", ["admin"])
  ]

  /** The two copies of the menu agree entry by entry. */
  lemma MenusAgree()
    ensures AllMenuItems == MenuItems
  {
  }

  /** The filter predicate: an ungated entry always shows; otherwise the
      role must be listed (when a list is given), the module must be in the
      map, and it must grant read or view. An empty permission string is
      falsy and counts as ungated. */
  function Visible(item: MenuItem, role: string, permissions: map<string, Crud>): (v: bool)
    ensures item.permission.None? || item.permission.value == "" ==> v
    ensures (item.permission.Some? && item.permission.value != "" &&
             item.allowedRoles.Some? && role !in item.allowedRoles.value) ==> !v
    ensures item.permission.Some? && item.permission.value != "" && item.permission.value !in permissions ==> !v
    ensures (item.permission.Some? && item.permission.value != "" && item.permission.value in permissions &&
             (item.allowedRoles.None? || role in item.allowedRoles.value)) ==>
      (v <==> permissions[item.permission.value].read || permissions[item.permission.value].view)
  {
    if item.permission.None? || item.permission.value == "" then true
    else if item.allowedRoles.Some? && role !in item.allowedRoles.value then false
    else if item.permission.value !in permissions then false
    else
      var perm := permissions[item.permission.value];
      perm.read || perm.view
  }

  /** The entries of a menu that the filter keeps for the hook's result. */
  function VisibleItems(menu: seq<MenuItem>, access: Access): (r: seq<MenuItem>)
    ensures forall i :: 0 <= i < |r| ==> r[i] in menu && Visible(r[i], access.role, access.permissions)
    ensures forall i :: 0 <= i < |menu| && Visible(menu[i], access.role, access.permissions) ==> menu[i] in r
  {
    FilterMembers(item => Visible(item, access.role, access.permissions), menu);
    Filter(item => Visible(item, access.role, access.permissions), menu)
  }

  /** `menuItems`: the entries the sidebar renders. */
  function SidebarMenu(access: Access): seq<MenuItem>
  {
    VisibleItems(AllMenuItems, access)
  }

  /** The rendered entries keep the menu's order. */
  lemma SidebarMenuKeepsOrder(access: Access)
    ensures IsSubsequence(SidebarMenu(access), AllMenuItems)
  {
    FilterIsSubsequence(item => Visible(item, access.role, access.permissions), AllMenuItems);
  }

  /** Overview is shown to everyone, even with an empty permission map. */
  lemma OverviewAlwaysShown(access: Access)
    ensures AllMenuItems[0] in SidebarMenu(access)
  {
  }

  /** An admin without usable server permissions sees all fourteen entries. */
  lemma AdminSeesEverything(user: User, parse: string -> Option<Json>)
    requires user.role == "admin"
    ensures SidebarMenu(UseRoleAccess(Some(user), JNull, parse)) == AllMenuItems
  {
    var access := UseRoleAccess(Some(user), JNull, parse);
    MalformedPayloadKeepsDefaults(Some(user), JNull, parse);
    assert access.role == "admin";
    assert access.permissions == DefaultRolePermissions(Admin);
    forall i | 0 <= i < |AllMenuItems|
      ensures Visible(AllMenuItems[i], access.role, access.permissions)
    {
      AdminHasFullAccess(Admin, if i == 0 then "canAccessUsers" else AllMenuItems[i].permission.value);
    }
    FilterKeepsAll(item => Visible(item, access.role, access.permissions), AllMenuItems);
  }

  /** Which entries the delivery agent's default map shows. */
  lemma DeliveryAgentEntry(i: nat)
    requires i < |AllMenuItems|
    ensures Visible(AllMenuItems[i], "delivery_agent", DefaultRolePermissions(DeliveryAgent)) <==>
      i == 0 || i == 3 || i == 7 || i == 8
  {
  }

  /** Filtering fourteen entries of which exactly the 1st, 4th, 8th and 9th
      pass keeps those four. */
  lemma FilterKeepsFour<T>(p: T -> bool, m: seq<T>)
    requires |m| == 14
    requires p(m[0]) && !p(m[1]) && !p(m[2]) && p(m[3]) && !p(m[4]) && !p(m[5]) && !p(m[6])
    requires p(m[7]) && p(m[8]) && !p(m[9]) && !p(m[10]) && !p(m[11]) && !p(m[12]) && !p(m[13])
    ensures Filter(p, m) == [m[0], m[3], m[7], m[8]]
  {
    var pairs := seq(7, i requires 0 <= i < 7 => [m[2 * i], m[2 * i + 1]]);
    assert m == pairs[0] + pairs[1] + pairs[2] + pairs[3] + pairs[4] + pairs[5] + pairs[6];
    FilterAppend(p, pairs[0] + pairs[1] + pairs[2] + pairs[3] + pairs[4] + pairs[5], pairs[6]);
    FilterAppend(p, pairs[0] + pairs[1] + pairs[2] + pairs[3] + pairs[4], pairs[5]);
    FilterAppend(p, pairs[0] + pairs[1] + pairs[2] + pairs[3], pairs[4]);
    FilterAppend(p, pairs[0] + pairs[1] + pairs[2], pairs[3]);
    FilterAppend(p, pairs[0] + pairs[1], pairs[2]);
    FilterAppend(p, pairs[0], pairs[1]);
    FilterPair(p, m[0], m[1]); FilterPair(p, m[2], m[3]); FilterPair(p, m[4], m[5]); FilterPair(p, m[6], m[7]);
    FilterPair(p, m[8], m[9]); FilterPair(p, m[10], m[11]); FilterPair(p, m[12], m[13]);
  }

  /** The delivery agent's default map shows exactly these four entries. */
  lemma DeliveryAgentDefaultMenu()
    ensures VisibleItems(AllMenuItems, Access("delivery_agent", DefaultRolePermissions(DeliveryAgent))) ==
      [AllMenuItems[0], AllMenuItems[3], AllMenuItems[7], AllMenuItems[8]]
  {
    var perms := DefaultRolePermissions(DeliveryAgent);
    var p := item => Visible(item, "delivery_agent", perms);
    var m := AllMenuItems;
    DeliveryAgentEntry(0); DeliveryAgentEntry(1); DeliveryAgentEntry(2); DeliveryAgentEntry(3);
    DeliveryAgentEntry(4); DeliveryAgentEntry(5); DeliveryAgentEntry(6); DeliveryAgentEntry(7);
    DeliveryAgentEntry(8); DeliveryAgentEntry(9); DeliveryAgentEntry(10); DeliveryAgentEntry(11);
    DeliveryAgentEntry(12); DeliveryAgentEntry(13);
    FilterKeepsFour(p, m);
  }

  /** A delivery agent without usable server permissions sees exactly
      Overview, Orders, Delivery and Map. */
  lemma DeliveryAgentSeesFour(user: User, parse: string -> Option<Json>)
    requires user.role == "delivery_agent"
    ensures SidebarMenu(UseRoleAccess(Some(user), JNull, parse)) ==
      [AllMenuItems[0], AllMenuItems[3], AllMenuItems[7], AllMenuItems[8]]
  {
    MalformedPayloadKeepsDefaults(Some(user), JNull, parse);
    assert UseRoleAccess(Some(user), JNull, parse) == Access("delivery_agent", DefaultRolePermissions(DeliveryAgent));
    DeliveryAgentDefaultMenu();
  }

  /** Being listed in the entry's roles is necessary: a role outside the list
      never sees the entry, whatever the server granted. */
  lemma RoleListOverridesPermissions(menu: seq<MenuItem>, access: Access, i: nat)
    requires i < |menu|
    requires menu[i].permission.Some? && menu[i].permission.value != ""
    requires menu[i].allowedRoles.Some? && access.role !in menu[i].allowedRoles.value
    ensures menu[i] !in VisibleItems(menu, access)
  {
  }
}
