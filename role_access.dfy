/** The permission resolver (`useRoleAccess`): the static table of default
    capabilities per role, the normaliser of server permission records, and
    the overlay of the server's records onto the role's defaults. */
module RoleAccess {
  import opened Collections
  import opened Storage
  import opened AuthContext

  /** The five capability flags of one module. */
  datatype Crud = Crud(read: bool, update: bool, delete: bool, view: bool, add: bool)

  const FullCrud := Crud(true, true, true, true, true)
  const ReadOnlyCrud := Crud(true, false, false, true, false)
  const NoAccessCrud := Crud(false, false, false, false, false)
  /** Read, update and view, but no delete and no add. */
  const NoDeleteCrud := Crud(true, true, false, true, false)

  /** The fourteen module names of the default table, in table order. */
  const ModuleNames: seq<string> := [
    "canAccessUsers", "canAccessShops", "canAccessProducts", "canAccessOrders",
    "canAccessPayments", "canAccessTickets", "canAccessAnalytics", "canAccessSettings",
    "canAccessDelivery", "canAccessMap", "canAccessNotifications", "canAccessLogs",
    "canAccessPermission", "canAccessRoles"]

  const KnownModules: set<string> := {
    "canAccessUsers", "canAccessShops", "canAccessProducts", "canAccessOrders",
    "canAccessPayments", "canAccessTickets", "canAccessAnalytics", "canAccessSettings",
    "canAccessDelivery", "canAccessMap", "canAccessNotifications", "canAccessLogs",
    "canAccessPermission", "canAccessRoles"}

  /** The six roles of the closed `Role` union. */
  datatype Role = Admin | Manager | ShopOwner | DeliveryAgent | Support | Customer

  /** The role's string as the server and the table spell it. */
  function RoleName(r: Role): string
  {
    match r
    case Admin => "admin"
    case Manager => "manager"
    case ShopOwner => "shop_owner"
    case DeliveryAgent => "delivery_agent"
    case Support => "support"
    case Customer => "customer"
  }

  /** Which of the six roles, if any, a role string names. */
  function ParseRole(s: string): (r: Option<Role>)
    ensures r.Some? ==> RoleName(r.value) == s
    ensures r.None? ==> forall role: Role :: RoleName(role) != s
  {
    if s == "admin" then Some(Admin)
    else if s == "manager" then Some(Manager)
    else if s == "shop_owner" then Some(ShopOwner)
    else if s == "delivery_agent" then Some(DeliveryAgent)
    else if s == "support" then Some(Support)
    else if s == "customer" then Some(Customer)
    else None
  }

  /** Every role's name parses back to the role. */
  lemma ParseRoleName(r: Role)
    ensures ParseRole(RoleName(r)) == Some(r)
  {
  }

  /** One row of the default table, in module order. */
  function Row(users: Crud, shops: Crud, products: Crud, orders: Crud, payments: Crud,
               tickets: Crud, analytics: Crud, settings: Crud, delivery: Crud, mapModule: Crud,
               notifications: Crud, logs: Crud, permission: Crud, roles: Crud): (m: map<string, Crud>)
    ensures m.Keys == KnownModules
  {
    map[
      "canAccessUsers" := users, "canAccessShops" := shops, "canAccessProducts" := products,
      "canAccessOrders" := orders, "canAccessPayments" := payments, "canAccessTickets" := tickets,
      "canAccessAnalytics" := analytics, "canAccessSettings" := settings,
      "canAccessDelivery" := delivery, "canAccessMap" := mapModule,
      "canAccessNotifications" := notifications, "canAccessLogs" := logs,
      "canAccessPermission" := permission, "canAccessRoles" := roles]
  }

  /** `defaultRolePermissions[role]`. */
  function DefaultRolePermissions(r: Role): (m: map<string, Crud>)
    ensures m.Keys == KnownModules
  {
    match r
    case Customer =>
      Row(NoAccessCrud, ReadOnlyCrud, ReadOnlyCrud, FullCrud, ReadOnlyCrud, FullCrud, NoAccessCrud,
          NoAccessCrud, ReadOnlyCrud, ReadOnlyCrud, FullCrud, NoAccessCrud, NoAccessCrud, NoAccessCrud)
    case ShopOwner =>
      Row(NoAccessCrud, NoDeleteCrud, FullCrud, NoDeleteCrud, ReadOnlyCrud, ReadOnlyCrud, FullCrud,
          NoAccessCrud, NoAccessCrud, NoAccessCrud, FullCrud, NoAccessCrud, NoAccessCrud, ReadOnlyCrud)
    case Admin =>
      Row(FullCrud, FullCrud, FullCrud, FullCrud, FullCrud, FullCrud, FullCrud,
          FullCrud, FullCrud, FullCrud, FullCrud, FullCrud, FullCrud, FullCrud)
    case Manager =>
      Row(ReadOnlyCrud, FullCrud, FullCrud, FullCrud, FullCrud, ReadOnlyCrud, FullCrud,
          ReadOnlyCrud, FullCrud, FullCrud, FullCrud, ReadOnlyCrud, FullCrud, FullCrud)
    case DeliveryAgent =>
      Row(NoAccessCrud, NoAccessCrud, NoAccessCrud, ReadOnlyCrud, NoAccessCrud, NoAccessCrud, NoAccessCrud,
          NoAccessCrud, FullCrud, FullCrud, ReadOnlyCrud, NoAccessCrud, NoAccessCrud, NoAccessCrud)
    case Support =>
      Row(ReadOnlyCrud, NoAccessCrud, NoAccessCrud, ReadOnlyCrud, NoAccessCrud, FullCrud, NoAccessCrud,
          NoAccessCrud, NoAccessCrud, NoAccessCrud, FullCrud, NoAccessCrud, NoAccessCrud, NoAccessCrud)
  }

  /** Capability a is granted only where b grants it too. */
  predicate AtMost(a: Crud, b: Crud)
  {
    (a.read ==> b.read) && (a.update ==> b.update) && (a.delete ==> b.delete)
    && (a.view ==> b.view) && (a.add ==> b.add)
  }

  /** The four presets, the only records the table uses. */
  predicate IsPreset(c: Crud)
  {
    c == FullCrud || c == ReadOnlyCrud || c == NoAccessCrud || c == NoDeleteCrud
  }

  /** All six roles map exactly the fourteen module names, no more. */
  lemma DefaultsHaveNoGaps(r: Role, s: Role)
    ensures DefaultRolePermissions(r).Keys == DefaultRolePermissions(s).Keys
    ensures forall k :: k in DefaultRolePermissions(r) <==> k in ModuleNames
    ensures |ModuleNames| == 14
  {
  }

  /** Every default record is a preset; in each, read and view agree, and
      add and delete are granted together and only with update and read. */
  lemma DefaultsArePresets(r: Role, k: string)
    requires k in KnownModules
    ensures IsPreset(DefaultRolePermissions(r)[k])
    ensures DefaultRolePermissions(r)[k].read == DefaultRolePermissions(r)[k].view
    ensures DefaultRolePermissions(r)[k].add == DefaultRolePermissions(r)[k].delete
    ensures AtMost(Crud(false, false, false, false, DefaultRolePermissions(r)[k].add), Crud(true, true, true, true, DefaultRolePermissions(r)[k].update))
    ensures DefaultRolePermissions(r)[k].update ==> DefaultRolePermissions(r)[k].read
  {
  }

  /** `admin` is granted everything, so no role's default exceeds admin's. */
  lemma AdminHasFullAccess(r: Role, k: string)
    requires k in KnownModules
    ensures DefaultRolePermissions(Admin)[k] == FullCrud
    ensures AtMost(DefaultRolePermissions(r)[k], DefaultRolePermissions(Admin)[k])
  {
  }

  /** `admin` is the only role with full access to every module. */
  lemma OnlyAdminHasFullAccess(r: Role)
    requires forall k :: k in KnownModules ==> DefaultRolePermissions(r)[k] == FullCrud
    ensures r == Admin
  {
    assert "canAccessUsers" in KnownModules;
    assert "canAccessSettings" in KnownModules;
  }

  /** A delivery agent has no access to payments. */
  lemma DeliveryAgentHasNoPaymentAccess()
    ensures DefaultRolePermissions(DeliveryAgent)["canAccessPayments"] == NoAccessCrud
  {
  }

  /** `defaultRolePermissions[role]` for any role string: an undefined entry
      spreads as nothing. */
  function DefaultsFor(role: string): (m: map<string, Crud>)
    ensures ParseRole(role).Some? ==> m == DefaultRolePermissions(ParseRole(role).value)
    ensures ParseRole(role).None? ==> m == map[]
  {
    match ParseRole(role)
    case Some(r) => DefaultRolePermissions(r)
    case None => map[]
  }

  /** `!!flag` on an optional boolean. */
  predicate FlagSet(b: Maybe<bool>)
  {
    b == Present(true)
  }

  /** The property key `mapped[p.module]` writes: a missing module is the
      key "undefined", a null one the key "null". */
  function ModuleKey(m: Maybe<string>): (k: string)
    ensures m.Present? ==> k == m.value
  {
    match m
    case Present(s) => s
    case Missing => "undefined"
    case Null => "null"
  }

  /** Converts one server record; a missing or null flag is false. */
  function ToCrud(p: PermissionDto): (c: Crud)
    ensures c.read <==> p.canRead == Present(true)
    ensures c.add <==> p.canAdd == Present(true)
    ensures c.update <==> p.canUpdate == Present(true)
    ensures c.delete <==> p.canDelete == Present(true)
    ensures c.view <==> p.canView == Present(true)
  {
    Crud(read := FlagSet(p.canRead), update := FlagSet(p.canUpdate), delete := FlagSet(p.canDelete),
         view := FlagSet(p.canView), add := FlagSet(p.canAdd))
  }

  /** What `mapPermissionsToCRUD` produces from a parsed array, None when it
      throws: a `null` element makes `p.module` throw. The records are
      applied in order, so a later record for a module replaces an earlier
      one. */
  function Normalized(items: seq<Item>): Option<map<string, Crud>>
  {
    if items == [] then Some(map[])
    else
      var last := items[|items| - 1];
      match Normalized(items[..|items| - 1])
      case None => None
      case Some(m) =>
        if last.NullItem? then None else Some(m[ModuleKey(last.dto.moduleName) := ToCrud(last.dto)])
  }

  /** The keys an array of records writes. */
  ghost function KeysOf(items: seq<Item>): set<string>
  {
    set i | 0 <= i < |items| && items[i].Record? :: ModuleKey(items[i].dto.moduleName)
  }

  /** The normaliser throws exactly when the array holds a `null`. */
  lemma {:induction false} NormalizedFailsIffNull(items: seq<Item>)
    ensures Normalized(items).None? <==> exists i :: 0 <= i < |items| && items[i].NullItem?
  {
    if items != [] {
      var init := items[..|items| - 1];
      NormalizedFailsIffNull(init);
      assert forall i :: 0 <= i < |init| ==> init[i] == items[i];
    }
  }

  /** The normalised keys are exactly the records' module keys. */
  lemma {:induction false} NormalizedKeys(items: seq<Item>)
    requires Normalized(items).Some?
    ensures Normalized(items).value.Keys == KeysOf(items)
  {
    if items != [] {
      var init := items[..|items| - 1];
      NormalizedKeys(init);
      assert forall i :: 0 <= i < |init| ==> init[i] == items[i];
      assert KeysOf(items) == KeysOf(init) + {ModuleKey(items[|items| - 1].dto.moduleName)};
    }
  }

  /** Each module gets the flags of the last record naming it. */
  lemma {:induction false} NormalizedLastWins(items: seq<Item>, i: nat)
    requires Normalized(items).Some?
    requires i < |items| && items[i].Record?
    requires forall j :: i < j < |items| && items[j].Record? ==>
      ModuleKey(items[j].dto.moduleName) != ModuleKey(items[i].dto.moduleName)
    ensures ModuleKey(items[i].dto.moduleName) in Normalized(items).value
    ensures Normalized(items).value[ModuleKey(items[i].dto.moduleName)] == ToCrud(items[i].dto)
  {
    var init := items[..|items| - 1];
    assert forall j :: 0 <= j < |init| ==> init[j] == items[j];
    if i < |items| - 1 {
      NormalizedLastWins(init, i);
    }
  }

  /** `mapPermissionsToCRUD` as the loop the source runs; None is the
      TypeError a `null` element raises. */
  method MapPermissionsToCrud(items: seq<Item>) returns (mapped: Option<map<string, Crud>>)
    ensures mapped == Normalized(items)
  {
    var m: map<string, Crud> := map[];
    var i := 0;
    while i < |items|
      invariant 0 <= i <= |items|
      invariant Normalized(items[..i]) == Some(m)
    {
      assert items[..i + 1][..i] == items[..i];
      if items[i].NullItem? {
        NormalizedFailsIffNull(items);
        return None;
      }
      m := m[ModuleKey(items[i].dto.moduleName) := ToCrud(items[i].dto)];
      i := i + 1;
    }
    assert items[..i] == items;
    return Some(m);
  }

  /** The server permission map read from the stored slot (`serverPermissions`):
      a string is parsed first (`parse` returns None when `JSON.parse`
      throws); anything but an array, or a throwing normaliser, gives null. */
  function ServerPermissions(stored: Json, parse: string -> Option<Json>): (r: Option<map<string, Crud>>)
    ensures stored.JNull? || stored.JOther? ==> r == None
    ensures stored.JList? ==> r == Normalized(stored.items)
    ensures stored.JText? && parse(stored.text).None? ==> r == None
  {
    var parsed := if stored.JText? then parse(stored.text) else Some(stored);
    match parsed
    case Some(JList(items)) => Normalized(items)
    case _ => None
  }

  /** `(user?.role as Role) || "customer"`: only an absent user or an empty
      role is defaulted; any other string is kept as it is. */
  function ResolvedRole(user: Option<User>): (role: string)
    ensures role != ""
    ensures user.Some? && user.value.role != "" ==> role == user.value.role
    ensures user.None? || user.value.role == "" ==> role == "customer"
  {
    if user.Some? && user.value.role != "" then user.value.role else "customer"
  }

  /** `{ ...defaults, ...server }`: the server's records win, whole. */
  function Merge(defaults: map<string, Crud>, server: map<string, Crud>): (m: map<string, Crud>)
    ensures m.Keys == defaults.Keys + server.Keys
    ensures forall k :: k in server ==> m[k] == server[k]
    ensures forall k :: k in defaults && k !in server ==> m[k] == defaults[k]
  {
    defaults + server
  }

  /** What the hook returns. */
  datatype Access = Access(role: string, permissions: map<string, Crud>)

  /** `useRoleAccess()` on the session's user and the permission slot. */
  function UseRoleAccess(user: Option<User>, stored: Json, parse: string -> Option<Json>): Access
  {
    var role := ResolvedRole(user);
    var server := ServerPermissions(stored, parse);
    Access(role, Merge(DefaultsFor(role), if server.Some? then server.value else map[]))
  }

  /** A known role is granted an entry for every one of the fourteen modules,
      whatever the server sent. */
  lemma KnownRoleIsTotal(user: Option<User>, stored: Json, parse: string -> Option<Json>)
    requires ParseRole(ResolvedRole(user)).Some?
    ensures KnownModules <= UseRoleAccess(user, stored, parse).permissions.Keys
  {
  }

  /** An absent user, or one with an empty role, gets the customer defaults
      under every record the server did not send. */
  lemma EmptyRoleIsCustomer(user: Option<User>, stored: Json, parse: string -> Option<Json>, k: string)
    requires user.None? || user.value.role == ""
    requires k in KnownModules
    requires ServerPermissions(stored, parse).None? || k !in ServerPermissions(stored, parse).value
    ensures UseRoleAccess(user, stored, parse).role == "customer"
    ensures UseRoleAccess(user, stored, parse).permissions[k] == DefaultRolePermissions(Customer)[k]
  {
  }

  /** A role string outside the six gets no defaults at all: the permissions
      are exactly the server's map, or empty. */
  lemma UnknownRoleGetsOnlyServerMap(user: Option<User>, stored: Json, parse: string -> Option<Json>)
    requires ParseRole(ResolvedRole(user)).None?
    ensures var server := ServerPermissions(stored, parse);
      UseRoleAccess(user, stored, parse).permissions == if server.Some? then server.value else map[]
  {
    var server := ServerPermissions(stored, parse);
    var s := if server.Some? then server.value else map[];
    assert map[] + s == s;
  }

  /** An absent payload, a non-array, a string that does not parse or an
      array with a `null` leaves the role's defaults in place. */
  lemma MalformedPayloadKeepsDefaults(user: Option<User>, stored: Json, parse: string -> Option<Json>)
    requires stored.JNull? || stored.JOther? || (stored.JText? && parse(stored.text).None?)
      || (stored.JList? && exists i :: 0 <= i < |stored.items| && stored.items[i].NullItem?)
    ensures UseRoleAccess(user, stored, parse).permissions == DefaultsFor(ResolvedRole(user))
  {
    if stored.JList? {
      NormalizedFailsIffNull(stored.items);
    }
    var d := DefaultsFor(ResolvedRole(user));
    assert d + map[] == d;
  }

  /** An empty array also leaves the defaults in place. */
  lemma EmptyPayloadKeepsDefaults(user: Option<User>, parse: string -> Option<Json>)
    ensures UseRoleAccess(user, JList([]), parse).permissions == DefaultsFor(ResolvedRole(user))
  {
    var d := DefaultsFor(ResolvedRole(user));
    assert d + map[] == d;
  }

  /** A server record for a module replaces the default record as a whole;
      modules the server does not name keep their defaults, and modules the
      table does not know are added. */
  lemma ServerRecordOverlaysDefault(user: Option<User>, stored: Json, parse: string -> Option<Json>, k: string)
    requires ServerPermissions(stored, parse).Some?
    ensures var p := UseRoleAccess(user, stored, parse).permissions;
      var server := ServerPermissions(stored, parse).value;
      var d := DefaultsFor(ResolvedRole(user));
      (k in server ==> k in p && p[k] == server[k])
      && (k !in server && k in d ==> k in p && p[k] == d[k])
      && (k !in server && k !in d ==> k !in p)
  {
  }

  /** With a well-formed array, every flag of a module the array names is
      the truthiness of the last record's flag for it. */
  lemma ServerFlagsFromLastRecord(user: Option<User>, items: seq<Item>, parse: string -> Option<Json>, i: nat)
    requires forall j :: 0 <= j < |items| ==> items[j].Record?
    requires i < |items|
    requires forall j :: i < j < |items| ==>
      ModuleKey(items[j].dto.moduleName) != ModuleKey(items[i].dto.moduleName)
    ensures var p := UseRoleAccess(user, JList(items), parse).permissions;
      var k := ModuleKey(items[i].dto.moduleName);
      k in p && (p[k].read <==> items[i].dto.canRead == Present(true))
      && (p[k].view <==> items[i].dto.canView == Present(true))
      && p[k] == ToCrud(items[i].dto)
  {
    NormalizedFailsIffNull(items);
    NormalizedLastWins(items, i);
  }

  /** An admin with no usable server data is granted full access to every
      module. */
  lemma AdminDefaultsAreFull(user: User, parse: string -> Option<Json>, k: string)
    requires user.role == "admin"
    requires k in KnownModules
    ensures UseRoleAccess(Some(user), JNull, parse).permissions[k] == FullCrud
  {
    MalformedPayloadKeepsDefaults(Some(user), JNull, parse);
  }
}
