/** The row-level data filter (`useFilteredData`): which rows of a list
    the signed-in user sees, by the raw role on the session's user and the
    options the page passes. */
module FilteredData {
  import opened Collections
  import opened AuthContext

  /** The optional ownership fields of a row. */
  datatype Owner = Owner(userId: Option<string>, shopId: Option<string>, deliveryAgentId: Option<string>)

  /** The page's `FilterOptions`; an absent option is false. */
  datatype FilterOptions = FilterOptions(filterByUserId: bool, filterByShopId: bool, filterByDeliveryAgent: bool)

  /** The rows `useFilteredData(data, options)` returns; `owner` reads a
      row's ownership fields. The role is `user.role` as stored, not the
      resolved role. */
  function Filtered<T>(data: Option<seq<T>>, user: Option<User>, options: FilterOptions, owner: T -> Owner): seq<T>
  {
    if data.None? || user.None? then []
    else
      var rows := data.value;
      var u := user.value;
      if u.role == "admin" || u.role == "manager" then rows
      else if u.role == "customer" && options.filterByUserId then
        Filter(row => owner(row).userId == Some(u.id), rows)
      else if u.role == "shop_owner" && options.filterByShopId then
        Filter(row => owner(row).shopId == Some(u.id), rows)
      else if u.role == "delivery_agent" && options.filterByDeliveryAgent then
        Filter(row => owner(row).deliveryAgentId == Some(u.id), rows)
      else rows
  }

  /** No data or no user gives no rows. */
  lemma NothingWithoutDataOrUser<T>(data: Option<seq<T>>, user: Option<User>, options: FilterOptions, owner: T -> Owner)
    requires data.None? || user.None?
    ensures Filtered(data, user, options, owner) == []
  {
  }

  /** The result is always an order-preserving subsequence of the data. */
  lemma FilteredIsSubsequence<T>(rows: seq<T>, user: Option<User>, options: FilterOptions, owner: T -> Owner)
    ensures IsSubsequence(Filtered(Some(rows), user, options, owner), rows)
  {
    SubsequenceOfSelf(rows);
    if user.Some? {
      var u := user.value;
      FilterIsSubsequence(row => owner(row).userId == Some(u.id), rows);
      FilterIsSubsequence(row => owner(row).shopId == Some(u.id), rows);
      FilterIsSubsequence(row => owner(row).deliveryAgentId == Some(u.id), rows);
    }
  }

  /** Admins and managers see all the data, whatever the options. */
  lemma AdminAndManagerSeeAll<T>(rows: seq<T>, user: User, options: FilterOptions, owner: T -> Owner)
    requires user.role == "admin" || user.role == "manager"
    ensures Filtered(Some(rows), Some(user), options, owner) == rows
  {
  }

  /** A customer filtering by user id sees exactly their own rows: each as
      often as it occurs in the data, and in order. */
  lemma CustomerSeesOwnRows<T>(rows: seq<T>, user: User, options: FilterOptions, owner: T -> Owner)
    requires user.role == "customer" && options.filterByUserId
    ensures var r := Filtered(Some(rows), Some(user), options, owner);
      (forall i :: 0 <= i < |r| ==> r[i] in rows && owner(r[i]).userId == Some(user.id)) &&
      (forall i :: 0 <= i < |rows| && owner(rows[i]).userId == Some(user.id) ==> rows[i] in r) &&
      (forall x :: multiset(r)[x] == if owner(x).userId == Some(user.id) then multiset(rows)[x] else 0) &&
      IsSubsequence(r, rows)
  {
    FilterMembers(row => owner(row).userId == Some(user.id), rows);
    FilterMultiset(row => owner(row).userId == Some(user.id), rows);
    FilteredIsSubsequence(rows, Some(user), options, owner);
  }

  /** A shop owner filtering by shop sees exactly the rows of their shop,
      each as often as it occurs, in order. */
  lemma ShopOwnerSeesOwnShop<T>(rows: seq<T>, user: User, options: FilterOptions, owner: T -> Owner)
    requires user.role == "shop_owner" && options.filterByShopId
    ensures var r := Filtered(Some(rows), Some(user), options, owner);
      (forall i :: 0 <= i < |r| ==> r[i] in rows && owner(r[i]).shopId == Some(user.id)) &&
      (forall i :: 0 <= i < |rows| && owner(rows[i]).shopId == Some(user.id) ==> rows[i] in r) &&
      (forall x :: multiset(r)[x] == if owner(x).shopId == Some(user.id) then multiset(rows)[x] else 0) &&
      IsSubsequence(r, rows)
  {
    FilterMembers(row => owner(row).shopId == Some(user.id), rows);
    FilterMultiset(row => owner(row).shopId == Some(user.id), rows);
    FilteredIsSubsequence(rows, Some(user), options, owner);
  }

  /** A delivery agent filtering by assignment sees exactly their
      deliveries, each as often as it occurs, in order. */
  lemma DeliveryAgentSeesAssigned<T>(rows: seq<T>, user: User, options: FilterOptions, owner: T -> Owner)
    requires user.role == "delivery_agent" && options.filterByDeliveryAgent
    ensures var r := Filtered(Some(rows), Some(user), options, owner);
      (forall i :: 0 <= i < |r| ==> r[i] in rows && owner(r[i]).deliveryAgentId == Some(user.id)) &&
      (forall i :: 0 <= i < |rows| && owner(rows[i]).deliveryAgentId == Some(user.id) ==> rows[i] in r) &&
      (forall x :: multiset(r)[x] == if owner(x).deliveryAgentId == Some(user.id) then multiset(rows)[x] else 0) &&
      IsSubsequence(r, rows)
  {
    FilterMembers(row => owner(row).deliveryAgentId == Some(user.id), rows);
    FilterMultiset(row => owner(row).deliveryAgentId == Some(user.id), rows);
    FilteredIsSubsequence(rows, Some(user), options, owner);
  }

  /** Any other role, or a role without its option, sees the data unchanged;
      an empty role is not treated as `customer` here. */
  lemma OtherCombinationsSeeAll<T>(rows: seq<T>, user: User, options: FilterOptions, owner: T -> Owner)
    requires !(user.role == "customer" && options.filterByUserId)
    requires !(user.role == "shop_owner" && options.filterByShopId)
    requires !(user.role == "delivery_agent" && options.filterByDeliveryAgent)
    ensures Filtered(Some(rows), Some(user), options, owner) == rows
  {
  }
}
