# Grocery delivery dashboard — access control, cart and list maintenance

This is a Dafny model of the logic inside a React grocery-delivery client. The client has a
customer storefront and a role-gated admin dashboard.

**Access control.**
- The permission resolver combines a static table, a normaliser and a merge. The table gives each
  of six roles a five-flag CRUD record for each of fourteen modules. The normaliser turns the
  server's `canX` records into CRUD records. The merge overlays those records on the role's
  defaults, module by module.
- Three gates consume the resolved map: the sidebar menu filter, the route guard, and the
  row-level data filter.
- The authentication session holds the user state and its persisted slots. It has login, logout
  and token-refresh transitions.
- After login, the user is sent to a landing path chosen by role.

**Storefront.** The cart, the cart page's fee and summary rules, the checkout guards, and the
order-tracking step classification.

**Dashboard list maintenance.**
- The generic table's search and two-step delete.
- The shop-slug derivation, the ticket reply, and the per-row permission-flag edit.
- The save, delete, statistics and badge rules of the gift card, ad, offer, banner, coupon and
  ticket pages.

One module per source file:
- `RoleAccess`, `AppSidebar`, `RouteConfig`, `ProtectedRoute`, `FilteredData`, `AuthContext`,
  `LoginPage`.
- `CartContext`, `CartPage`, `CheckoutPage`, `OrderTracking`.
- `CrudTable`, `ShopDialog`, `TicketDialog`, `UpdateUserForm`.
- `GiftCards`, `Ads`, `Offers`, `Banners`, `Coupons`, `Tickets`.

Shared helper modules:
- `Collections`: the array methods `filter`, `map`, `find`, `findIndex` and `reduce`, with their
  facts.
- `Text`: `toLowerCase`, `includes`, `trim` and the `\s` class.
- `Storage`: the shapes of stored and server values.
- `Lists`: the replace/append/delete-by-id pattern and the page state that four dashboard pages
  share.

State that the source updates in place is modelled as classes, each method specified against the
pure functions:
- the session (`AuthProvider`) and the cart (`CartProvider`);
- the pending delete of the table (`DeleteConfirmation`);
- the form states (`ShopForm`, `TicketForm`, `UserForm`);
- the page states (`ListPage`, `CouponsPage`, `TicketsPage`).

The loop that builds the normalised permission map is the method `MapPermissionsToCrud`.

**Inputs, not computations.**
- Network responses, JWT decoding and `JSON.parse` are parameters of the operations that use
  them.
- So are `Date.now()` stamps and ISO timestamps.
- Encrypted local storage is a slot that holds a value or nothing; an empty slot reads as null.

**Behaviour of the code worth knowing.**
- Only an absent or empty role becomes `customer` (src/hooks/useRoleAccess.tsx:203). Any other
  role string is kept as it is. A role outside the six names has no default table, so its merged
  map is exactly the server map, or empty when there is none (src/hooks/useRoleAccess.tsx:218-221).
- Stored server permissions are overlaid whether or not a user is signed in
  (src/hooks/useRoleAccess.tsx:205-221).
- The row-level filter compares the raw `user.role` string, not the resolved role
  (src/hooks/useFilteredData.tsx:22-39).
- The dashboard table takes no permissions input (src/components/CRUDTable.tsx:13-27). Add, Edit
  and Delete are always rendered. A page that passes a `permissions` prop, or a key destructured
  from the role hook, passes something the table ignores.

## Model

| member | source | states |
|---|---|---|
| RoleAccess.ParseRole | src/hooks/useRoleAccess.tsx:4-10 | a role string parses to a role exactly when it is one of the six role names, and to the role carrying that name |
| RoleAccess.ParseRoleName | src/hooks/useRoleAccess.tsx:4-10 | every role's name parses back to that role |
| RoleAccess.Row | src/hooks/useRoleAccess.tsx:83-181 | a table row maps exactly the fourteen module keys |
| RoleAccess.DefaultRolePermissions | src/hooks/useRoleAccess.tsx:83-181 | every role's default map has exactly the fourteen module keys |
| RoleAccess.DefaultsHaveNoGaps | src/hooks/useRoleAccess.tsx:83-181 | any two roles have the same key set; a key is in a default map iff it is one of the fourteen module names |
| RoleAccess.DefaultsArePresets | src/hooks/useRoleAccess.tsx:52-79 | every default entry is one of the four presets (full, read-only, no access, no delete), so read equals view, add equals delete, and update implies read |
| RoleAccess.AdminHasFullAccess | src/hooks/useRoleAccess.tsx:116-131 | admin maps every module to full CRUD, and every role's entry is flag-wise at most admin's |
| RoleAccess.OnlyAdminHasFullAccess | src/hooks/useRoleAccess.tsx:83-181 | a role whose every module is full CRUD is admin |
| RoleAccess.DeliveryAgentHasNoPaymentAccess | src/hooks/useRoleAccess.tsx:149-164 | delivery_agent maps canAccessPayments to no access |
| RoleAccess.DefaultsFor | src/hooks/useRoleAccess.tsx:219 | the spread of an indexed default is the role's table when the role is known, and empty otherwise |
| RoleAccess.ModuleKey | src/hooks/useRoleAccess.tsx:187 | a present module name is used as the key as it is |
| RoleAccess.ToCrud | src/hooks/useRoleAccess.tsx:187-193 | each flag is true exactly when the matching canX is present and true; missing, null or false all give false |
| RoleAccess.NormalizedFailsIffNull | src/hooks/useRoleAccess.tsx:186-194 | normalising fails (the TypeError that is then caught) exactly when some element is null |
| RoleAccess.NormalizedKeys | src/hooks/useRoleAccess.tsx:186-194 | the keys of the normalised map are exactly the module values of the records |
| RoleAccess.NormalizedLastWins | src/hooks/useRoleAccess.tsx:186-194 | when records repeat a module, the entry comes from the last record naming it |
| RoleAccess.MapPermissionsToCrud | src/hooks/useRoleAccess.tsx:184-197 | the forEach loop's result equals the normalised map of the array |
| RoleAccess.ServerPermissions | src/hooks/useRoleAccess.tsx:205-216 | a null or non-array payload yields no server map; an array yields its normalised map; an unparsable string yields none |
| RoleAccess.ResolvedRole | src/hooks/useRoleAccess.tsx:203 | the role is the user's non-empty role, otherwise "customer"; it is never empty |
| RoleAccess.Merge | src/hooks/useRoleAccess.tsx:218-221 | the merged keys are the union; a server entry wins whole; a default entry survives only where the server has none |
| RoleAccess.KnownRoleIsTotal | src/hooks/useRoleAccess.tsx:200-227 | for a known role, every one of the fourteen modules is in the effective map |
| RoleAccess.EmptyRoleIsCustomer | src/hooks/useRoleAccess.tsx:203 | an absent or empty role resolves to customer and gets the customer defaults wherever the server is silent |
| RoleAccess.UnknownRoleGetsOnlyServerMap | src/hooks/useRoleAccess.tsx:203-221 | an unknown role string keeps its name and gets exactly the server map, or an empty map without one |
| RoleAccess.MalformedPayloadKeepsDefaults | src/hooks/useRoleAccess.tsx:207-216 | a null, non-array or unparsable payload leaves the role's defaults unchanged |
| RoleAccess.EmptyPayloadKeepsDefaults | src/hooks/useRoleAccess.tsx:211-221 | an empty permission array leaves the role's defaults unchanged |
| RoleAccess.ServerRecordOverlaysDefault | src/hooks/useRoleAccess.tsx:218-221 | with a server map, each module takes the server's record if present, else the default, and server-only modules are added |
| RoleAccess.ServerFlagsFromLastRecord | src/hooks/useRoleAccess.tsx:184-221 | the effective flags of a module named by records are the truthiness of the last such record's canX fields |
| RoleAccess.AdminDefaultsAreFull | src/hooks/useRoleAccess.tsx:116-131 | an admin without stored permissions has full CRUD on every module |
| RouteConfig.MenuItemsShape | src/lib/route_config.ts:3-31 | fourteen entries; Overview comes first and is the only one without a permission; every other entry has a permission and a role list |
| RouteConfig.CouponsAndSettingsShareAGate | src/lib/route_config.ts:16-30 | Coupons and Settings are both gated by canAccessSettings, for admin only |
| RouteConfig.UrlsUnderDashboard | src/lib/route_config.ts:4-30 | every url starts with /dashboard |
| RouteConfig.AllowedRolesAreRoles | src/lib/route_config.ts:3-31 | every listed role is one of the six role names, and admin is listed on every gated entry |
| RouteConfig.AccessRoleAliases | src/lib/route_config.ts:33-41 | shop maps to shop_owner, delivery to delivery_agent, the other keys to themselves, and every role has an alias |
| AppSidebar.MenusAgree | src/components/AppSidebar.tsx:29-57 | the sidebar's menu and the route configuration's menu are the same entries |
| AppSidebar.Visible | src/components/AppSidebar.tsx:63-78 | an ungated entry shows; otherwise an excluding role list hides it, a missing module hides it, and else it shows iff read or view |
| AppSidebar.VisibleItems | src/components/AppSidebar.tsx:63-78 | the kept entries are menu entries the predicate accepts, and every accepted entry is kept |
| AppSidebar.SidebarMenuKeepsOrder | src/components/AppSidebar.tsx:63 | the shown menu is an order-preserving subsequence of the full menu |
| AppSidebar.OverviewAlwaysShown | src/components/AppSidebar.tsx:66 | Overview is shown whatever the role and permissions |
| AppSidebar.AdminSeesEverything | src/components/AppSidebar.tsx:29-78 | an admin with default permissions sees all fourteen entries |
| AppSidebar.DeliveryAgentEntry | src/components/AppSidebar.tsx:63-78 | with the delivery agent's defaults, entry i shows iff it is Overview, Orders, Delivery or Map |
| AppSidebar.FilterKeepsFour | src/components/AppSidebar.tsx:63 | filtering fourteen entries that the predicate accepts only at positions 0, 3, 7 and 8 keeps exactly those four, in order |
| AppSidebar.DeliveryAgentDefaultMenu | src/components/AppSidebar.tsx:29-78 | the delivery agent's default map shows exactly Overview, Orders, Delivery and Map |
| AppSidebar.DeliveryAgentSeesFour | src/components/AppSidebar.tsx:61-78 | a signed-in delivery agent without stored permissions sees exactly those four entries |
| AppSidebar.RoleListOverridesPermissions | src/components/AppSidebar.tsx:68-70 | a gated entry whose role list excludes the role is hidden whatever the permissions say |
| ProtectedRoute.Guard | src/components/ProtectedRoute.tsx:23-42 | no user redirects to login carrying the location; an excluding role list gives unauthorized; the child renders iff signed in, role allowed and the module is present with read |
| ProtectedRoute.LoginCheckComesFirst | src/components/ProtectedRoute.tsx:23-25 | without a user the login redirect wins over any role list or permission |
| ProtectedRoute.ViewAloneIsNotEnough | src/components/ProtectedRoute.tsx:31-40 | view without read is refused |
| ProtectedRoute.UngatedRouteRenders | src/components/ProtectedRoute.tsx:42 | with neither a role list nor a permission, every signed-in user gets the child |
| ProtectedRoute.EmptyRoleChecksAsCustomer | src/components/ProtectedRoute.tsx:19 | the role checked is the resolved one, so an empty role passes a customer-only list |
| ProtectedRoute.PaymentsRefusedToSupport | src/components/ProtectedRoute.tsx:31-40 | by the default table, a support user without stored permissions is refused the payments module |
| ProtectedRoute.PaymentsReadableByCustomer | src/components/ProtectedRoute.tsx:31-40 | by the default table, a customer without stored permissions may open the payments module |
| FilteredData.NothingWithoutDataOrUser | src/hooks/useFilteredData.tsx:17 | no data or no user gives [] |
| FilteredData.FilteredIsSubsequence | src/hooks/useFilteredData.tsx:16-42 | the result is always an order-preserving subsequence of the data |
| FilteredData.AdminAndManagerSeeAll | src/hooks/useFilteredData.tsx:22-24 | admin and manager get the data unchanged whatever the options |
| FilteredData.CustomerSeesOwnRows | src/hooks/useFilteredData.tsx:27-29 | a customer filtering by user id gets exactly the rows with their id: each as often as it occurs in the data, and in order |
| FilteredData.ShopOwnerSeesOwnShop | src/hooks/useFilteredData.tsx:32-34 | a shop owner filtering by shop keeps exactly the rows whose shop id is their id, each as often as it occurs, in order |
| FilteredData.DeliveryAgentSeesAssigned | src/hooks/useFilteredData.tsx:37-39 | a delivery agent filtering by assignment keeps exactly the rows assigned to them, each as often as it occurs, in order |
| FilteredData.OtherCombinationsSeeAll | src/hooks/useFilteredData.tsx:41 | every other role and option combination gets the data unchanged |
| AuthContext.AuthProvider.constructor | src/contexts/AuthContext.tsx:38-41 | the user state starts as the stored user, and the slot mirrors it |
| AuthContext.AuthProvider.IsAuthenticated | src/contexts/AuthContext.tsx:132 | authenticated iff there is a user |
| AuthContext.AuthProvider.StoredPermission | src/lib/utils.ts:20-32 | an empty permission slot reads as null, otherwise as its value |
| AuthContext.AuthProvider.Login | src/contexts/AuthContext.tsx:74-117 | success iff the request answered with a truthy access token that decodes; the user is set only then; the token slots are written whenever the request answered; the permission slot is written only when the permission query answered; the user slot keeps mirroring the user |
| AuthContext.AuthProvider.Logout | src/contexts/AuthContext.tsx:119-124 | the user becomes null, and the token and permission slots are removed |
| AuthContext.AuthProvider.RefreshAccessToken | src/contexts/AuthContext.tsx:52-72 | no request without a truthy refresh token and a stored email, and then nothing changes; a success stores both tokens and returns the access token; a failure logs out and returns null |
| LoginPage.LandingPath | src/pages/Login.tsx:35-43 | customer goes to /customer, delivery_agent to /dashboard/delivery, support to /dashboard/tickets, and anything else to /dashboard |
| LoginPage.LandingPathsUnderDashboard | src/pages/Login.tsx:35-43 | every landing path except the customer's is under /dashboard |
| LoginPage.HandleSubmit | src/pages/Login.tsx:19-51 | as written: the toast is always the success toast; the handler throws exactly when the raw user slot holds ciphertext |
| LoginPage.FailureToastUnreachable | src/pages/Login.tsx:22-24 | the outcome does not depend on the login result, so the failure toast is unreachable |
| LoginPage.FirstLoginLandsOnDashboard | src/pages/Login.tsx:31-43 | with nothing stored yet every role lands on /dashboard |
| LoginPage.HandleSubmitAwaited | src/pages/Login.tsx:22-50 | awaited: success toast iff login succeeded; no navigation on failure; navigation follows the landing path of the signed-in role |
| LoginPage.AsWrittenDiffersFromAwaited | src/pages/Login.tsx:22-50 | rejected credentials show success as written but failure when awaited; a customer lands on /dashboard as written but on /customer when awaited |
| CartContext.AddUnknownProduct | src/contexts/CartContext.tsx:39-40 | adding a product missing from the catalogue leaves the cart unchanged |
| CartContext.AddExistingProduct | src/contexts/CartContext.tsx:43-49 | adding a product already in the cart raises that line's quantity by one, keeps the other lines, and raises the total quantity by 1 and the total price by the line's price |
| CartContext.AddNewProduct | src/contexts/CartContext.tsx:51-63 | adding a new catalogue product appends one line with the product's fields and quantity 1; the totals grow by 1 and by the price; product ids stay unique |
| CartContext.AddKeepsProductsUnique | src/contexts/CartContext.tsx:38-65 | every add keeps product ids unique |
| CartContext.RemoveDropsExactly | src/contexts/CartContext.tsx:67-69 | removal leaves no line of the product, keeps every other line as often as it occurs and in order, and keeps ids unique |
| CartContext.FilterKeepsUnique | src/contexts/CartContext.tsx:68 | removal keeps product ids unique, and every remaining line was in the cart |
| CartContext.RemoveLowersTotals | src/contexts/CartContext.tsx:67-69 | removing a product's unique line drops exactly that line and lowers the totals by its quantity and amount |
| CartContext.NonPositiveQuantityRemoves | src/contexts/CartContext.tsx:72-75 | a quantity of zero or less acts as removal |
| CartContext.PositiveQuantitySets | src/contexts/CartContext.tsx:76-80 | a positive quantity is set on the product's line, the other lines and the length are unchanged, and an absent product is a no-op |
| CartContext.EmptyCartTotals | src/contexts/CartContext.tsx:91-97 | the empty cart's quantity and price totals are 0 |
| CartContext.TotalPriceNonNegative | src/contexts/CartContext.tsx:94-97 | with non-negative prices and quantities, the total price is non-negative |
| CartContext.CartProvider.constructor | src/contexts/CartContext.tsx:28-31 | the cart starts from the saved lines |
| CartContext.CartProvider.TotalItems | src/contexts/CartContext.tsx:88 | the item count is the number of lines |
| CartContext.CartProvider.AddItem | src/contexts/CartContext.tsx:38-65 | the cart becomes the added-to cart, and ids stay unique |
| CartContext.CartProvider.RemoveItem | src/contexts/CartContext.tsx:67-69 | the cart becomes the cart without the product, which is absent afterwards |
| CartContext.CartProvider.UpdateQuantity | src/contexts/CartContext.tsx:71-81 | the cart becomes the quantity-updated cart |
| CartContext.CartProvider.ClearCart | src/contexts/CartContext.tsx:83-85 | the cart is empty, with zero totals |
| CartPage.DeliveryFee | src/pages/Cart.tsx:30 | the fee is 0 iff the subtotal exceeds 500, else 40; a subtotal of exactly 500 pays 40 |
| CartPage.RenderCart | src/pages/Cart.tsx:11-142 | the empty cart shows the empty view; otherwise the line amounts are price × quantity, the total is subtotal plus fee, and the hint appears iff the fee is positive, showing 500 − subtotal ≥ 0 |
| CartPage.LineAmountsAddUp | src/pages/Cart.tsx:99 | the displayed line amounts add up to the subtotal |
| CartPage.TotalWithinFee | src/pages/Cart.tsx:30-31 | the total lies between the subtotal and the subtotal plus 40 |
| CartPage.DecrementLastUnitRemovesLine | src/pages/Cart.tsx:76-78 | pressing minus on a line of quantity 1 removes the line |
| CartPage.DecrementLowersQuantity | src/pages/Cart.tsx:76-78 | pressing minus on a larger line lowers its quantity and the total quantity by one |
| CartPage.IncrementIsAdd | src/pages/Cart.tsx:89-91 | pressing plus has the same effect as adding the product again |
| CheckoutPage.RenderCheckout | src/pages/Checkout.tsx:22-23 | an empty cart redirects to /cart; otherwise the fee and total are the cart page's |
| CheckoutPage.PlaceOrder | src/pages/Checkout.tsx:25-55 | a signed-out user gets the login toast; a signed-in user with an address that is all whitespace gets the address toast; otherwise the order is placed under order_ and the stamp |
| CheckoutPage.NavigationAfter | src/pages/Checkout.tsx:32-54 | login goes to /login, a missing address stays put, a placed order goes to /order-tracking/ and its id |
| CheckoutPage.HandlePlaceOrder | src/pages/Checkout.tsx:25-55 | the guards run in order, and the cart is cleared exactly when the order is placed |
| CheckoutPage.SurroundingSpaceIsIgnored | src/pages/Checkout.tsx:36 | whitespace around a non-blank address does not stop the order |
| CrudTable.NotSearchableKeepsAll | src/components/CRUDTable.tsx:45-51 | with search off, the rows pass unchanged |
| CrudTable.SearchKeepsExactlyMatches | src/components/CRUDTable.tsx:46-50 | a row is kept iff some lower-cased field contains the lower-cased term, as often as it occurs in the data; the result is an order-preserving subsequence |
| CrudTable.EmptyTermKeepsAll | src/components/CRUDTable.tsx:46-50 | the empty term keeps every row that has a property |
| CrudTable.SearchIgnoresTermCase | src/components/CRUDTable.tsx:48 | lower-casing the term does not change the result |
| CrudTable.ExactFieldIsFound | src/components/CRUDTable.tsx:46-50 | a row with a field equal to the term up to case is kept |
| CrudTable.RenderTable | src/components/CRUDTable.tsx:64-184 | a spinner iff loading; otherwise the filtered rows, with a notice iff there are none, and the no-match notice iff a term is set |
| CrudTable.DeleteConfirmation.constructor | src/components/CRUDTable.tsx:43 | nothing is pending and the dialog is closed |
| CrudTable.DeleteConfirmation.IsOpen | src/components/CRUDTable.tsx:189 | the dialog is open iff a row is pending |
| CrudTable.DeleteConfirmation.HandleDelete | src/components/CRUDTable.tsx:53-55 | only records the pending row |
| CrudTable.DeleteConfirmation.ConfirmDelete | src/components/CRUDTable.tsx:57-62 | deletes the pending row, if any, and clears the slot |
| CrudTable.DeleteConfirmation.Close | src/components/CRUDTable.tsx:190 | clears the slot without deleting |
| CrudTable.DeleteFlow | src/components/CRUDTable.tsx:53-62 | delete then confirm deletes exactly that row; a close in between deletes nothing |
| ShopDialog.Dashify | src/components/dialogs/ShopDialog.tsx:68 | whitespace runs are replaced, so no whitespace is left, and the result is no longer than the input |
| ShopDialog.DashifyKeepsLowerCase | src/components/dialogs/ShopDialog.tsx:68 | the replacement introduces no upper-case letter |
| ShopDialog.DashifyWithoutSpace | src/components/dialogs/ShopDialog.tsx:68 | a string without whitespace is unchanged |
| ShopDialog.DashifyAllSpace | src/components/dialogs/ShopDialog.tsx:68 | a run continues until the next non-space character: further whitespace adds nothing |
| ShopDialog.TrailingSpaceLeavesDash | src/components/dialogs/ShopDialog.tsx:68 | trailing whitespace leaves a trailing dash |
| ShopDialog.DashifyWordThen | src/components/dialogs/ShopDialog.tsx:68 | a word is copied as it is |
| ShopDialog.DashifyRunThen | src/components/dialogs/ShopDialog.tsx:68 | a whole whitespace run becomes a single dash |
| ShopDialog.Slug | src/components/dialogs/ShopDialog.tsx:68 | the slug contains no whitespace and no upper-case letter |
| ShopDialog.SlugOfOneWord | src/components/dialogs/ShopDialog.tsx:68 | the slug of a name without whitespace is the lower-cased name |
| ShopDialog.SlugIdempotent | src/components/dialogs/ShopDialog.tsx:68 | deriving a slug from a slug changes nothing |
| ShopDialog.SurroundingSpaceBecomesDashes | src/components/dialogs/ShopDialog.tsx:68 | leading and trailing whitespace become a leading and a trailing dash, because nothing is trimmed |
| ShopDialog.TwoWords | src/components/dialogs/ShopDialog.tsx:68 | two words separated by any whitespace run join with a single dash |
| ShopDialog.ShopForm.constructor | src/components/dialogs/ShopDialog.tsx:31-43 | the form starts as the blank shop |
| ShopDialog.ShopForm.Reset | src/components/dialogs/ShopDialog.tsx:45-64 | a given shop prefills the form unchanged; otherwise the fresh shop has id shop_ and the stamp, category Grocery, isOpen true, and empty name, slug and address |
| ShopDialog.ShopForm.HandleSubmit | src/components/dialogs/ShopDialog.tsx:66-71 | the saved shop is the form with the derived slug, which overwrites any previous slug, and then the dialog closes |
| TicketDialog.ReplyAuthor | src/components/dialogs/TicketDialog.tsx:74 | the reply is from the user's non-empty name, otherwise from Support |
| TicketDialog.WithReply | src/components/dialogs/TicketDialog.tsx:69-80 | the new reply is appended after the old replies (or []), the count grows by one, the status becomes in_progress, and all other fields are unchanged |
| TicketDialog.TwoRepliesAccumulate | src/components/dialogs/TicketDialog.tsx:71-78 | two replies accumulate in order after the old ones |
| TicketDialog.NewTicket | src/components/dialogs/TicketDialog.tsx:52-62 | a new ticket has id ticket_ and the stamp, status open, category order, priority medium, empty replies, and the user's id or "" |
| TicketDialog.TicketForm.constructor | src/components/dialogs/TicketDialog.tsx:32-45 | the form starts as a blank open ticket with an empty reply message |
| TicketDialog.TicketForm.Reset | src/components/dialogs/TicketDialog.tsx:47-64 | reply mode with a ticket loads it and clears the message; create mode without a ticket loads the new ticket; other combinations change nothing |
| TicketDialog.TicketForm.SetReplyMessage | src/components/dialogs/TicketDialog.tsx:45 | only the reply message changes |
| TicketDialog.TicketForm.HandleSubmit | src/components/dialogs/TicketDialog.tsx:66-86 | reply mode with a ticket saves the replied ticket, otherwise the form; whichever is saved once, and the dialog then closes |
| UpdateUserForm.TextOr | src/components/forms/CustomUpdateUserForm.tsx:11-14 | a missing text field starts as "" |
| UpdateUserForm.RowsOr | src/components/forms/CustomUpdateUserForm.tsx:15-16 | a missing permission list starts as [] |
| UpdateUserForm.EditableFlagsAreTheFive | src/components/forms/CustomUpdateUserForm.tsx:101 | the editable flags are exactly canRead, canAdd, canUpdate, canDelete and canView, each once |
| UpdateUserForm.WithFlag | src/components/forms/CustomUpdateUserForm.tsx:23 | only the chosen flag changes; the other flags and the module keep their values |
| UpdateUserForm.SetFlagAt | src/components/forms/CustomUpdateUserForm.tsx:22-23 | only the element at the index changes; an in-range index keeps the length; an index past the end extends the list with holes |
| UpdateUserForm.SetSameFlagIsNoChange | src/components/forms/CustomUpdateUserForm.tsx:21-25 | setting a flag to its current value changes nothing |
| UpdateUserForm.EditsCommute | src/components/forms/CustomUpdateUserForm.tsx:21-25 | edits of two different flags of one row commute |
| UpdateUserForm.UserForm.constructor | src/components/forms/CustomUpdateUserForm.tsx:10-17 | missing fields start as "" and missing lists as [] |
| UpdateUserForm.UserForm.UpdatePermission | src/components/forms/CustomUpdateUserForm.tsx:21-25 | only the chosen list changes, by a flag edit at the index; the other list and the text fields are unchanged |
| Lists.ReplaceById | src/pages/dashboard/GiftCards.tsx:37 | every record with the saved id becomes the saved record; the others and the length are unchanged |
| Lists.UpsertExisting | src/pages/dashboard/GiftCards.tsx:36-38 | saving a record whose non-empty id is listed replaces in place and keeps the length |
| Lists.UpsertNew | src/pages/dashboard/GiftCards.tsx:39-42 | saving any other record appends the created copy, so the length grows by one |
| Lists.UpsertKeepsIdsUnique | src/pages/dashboard/GiftCards.tsx:35-43 | saving keeps ids unique when the fresh id is unused |
| Lists.WithoutIdExactly | src/pages/dashboard/GiftCards.tsx:59 | deleting removes every record with the id and keeps every other record as often as it occurs, in order; it is a no-op for an unlisted id |
| Lists.DeleteUndoesAppend | src/pages/dashboard/Banners.tsx:34-37 | deleting the fresh id of an appended record gives back the earlier list |
| Lists.DeleteAfterReplace | src/pages/dashboard/Ads.tsx:36-38 | deleting an id after replacing it gives what deleting it before would |
| Lists.DeleteLowersCount | src/pages/dashboard/GiftCards.tsx:58-63 | deleting never raises a count of records |
| Lists.ActivityBadge | src/pages/dashboard/Banners.tsx:94-96 | the badge is Active iff the record is active (also the ad and offer tables) |
| Lists.ListPage.constructor | src/pages/dashboard/GiftCards.tsx:25-29 | the page starts from the stored list with both dialogs closed |
| Lists.ListPage.OpenNew | src/pages/dashboard/GiftCards.tsx:69 | the Add button clears the selection and opens the dialog |
| Lists.ListPage.HandleEdit | src/pages/dashboard/GiftCards.tsx:48-51 | selects the record and opens the dialog |
| Lists.ListPage.HandleDelete | src/pages/dashboard/GiftCards.tsx:53-56 | records the pending id and opens the confirmation |
| Lists.ListPage.HandleSaveAsWritten | src/pages/dashboard/GiftCards.tsx:35-46 | as written: the list is updated, then the call of the undefined logAction throws, so the dialog and the selection stay |
| Lists.ListPage.HandleSave | src/pages/dashboard/GiftCards.tsx:35-46 | as intended: the list is updated, the dialog closes and the selection is cleared |
| Lists.ListPage.ConfirmDeleteAsWritten | src/pages/dashboard/GiftCards.tsx:58-63 | as written: the records with the pending id are removed, then the throw keeps the confirmation open and the id pending |
| Lists.ListPage.ConfirmDelete | src/pages/dashboard/GiftCards.tsx:58-63 | as intended: the records are removed, the confirmation closes and the pending id is reset to '' |
| Lists.SaveAsWrittenKeepsDialogOpen | src/pages/dashboard/GiftCards.tsx:38-45 | after editing and saving, the dialog is open as written and closed as intended |
| Lists.DeleteAsWrittenKeepsPendingId | src/pages/dashboard/GiftCards.tsx:58-63 | after confirming, the id is still pending and the confirmation open as written; the id is reset as intended |
| GiftCards.SaveExistingCard | src/pages/dashboard/GiftCards.tsx:36-38 | saving a listed card replaces every card with its id; the length and the other cards are unchanged |
| GiftCards.SaveNewCard | src/pages/dashboard/GiftCards.tsx:39-42 | any other card is appended under gc and the stamp, with balance equal to amount; the total value grows by the amount |
| GiftCards.DeleteCard | src/pages/dashboard/GiftCards.tsx:58-63 | deleting removes exactly the cards with the pending id and never raises the active or used counts |
| GiftCards.CountsBounded | src/pages/dashboard/GiftCards.tsx:33-98 | the active and used counts never exceed the number of cards |
| GiftCards.Status | src/pages/dashboard/GiftCards.tsx:129-130 | Active iff active with a positive balance; otherwise Used iff the balance is 0; otherwise Inactive |
| GiftCards.CreatedCardStatus | src/pages/dashboard/GiftCards.tsx:40-130 | a new active card with a positive amount shows Active; one with amount 0 shows Used |
| Ads.SaveExistingAd | src/pages/dashboard/Ads.tsx:36-38 | saving a listed ad replaces it in place; the length and the other ads are unchanged |
| Ads.SaveNewAd | src/pages/dashboard/Ads.tsx:39-42 | any other ad is appended with revenue and clicks reset to 0, so total clicks are unchanged and the active count grows only if the ad is active |
| Ads.DeleteAd | src/pages/dashboard/Ads.tsx:58-63 | deleting removes exactly the ads with the pending id and never raises the active count |
| Offers.SaveOffer | src/pages/dashboard/Offers.tsx:35-46 | a listed offer is replaced in place, the others unchanged; any other offer is appended under offer and the stamp |
| Offers.DeleteOffer | src/pages/dashboard/Offers.tsx:58-63 | deleting removes exactly the offers with the pending id, in order |
| Offers.DiscountShown | src/pages/dashboard/Offers.tsx:98-100 | the value is shown as a percentage iff the discount type is percentage, else in rupees |
| Banners.SaveBanner | src/pages/dashboard/Banners.tsx:30-41 | a listed banner is replaced in place by the saved one, with the length and the other banners unchanged; any other banner is appended under banner and the stamp |
| Banners.SaveThenDeleteNew | src/pages/dashboard/Banners.tsx:34-58 | a banner saved as new and then deleted leaves the list as before |
| Coupons.SavedCoupons | src/pages/dashboard/Coupons.tsx:33-46 | if some coupon has the id, only the first such index is replaced and the length is unchanged; otherwise the coupon is appended with its own id |
| Coupons.SaveMatchesReplaceById | src/pages/dashboard/Coupons.tsx:34-39 | with unique ids, the index-based save equals replace-by-id |
| Coupons.OnlyFirstDuplicateReplaced | src/pages/dashboard/Coupons.tsx:34-39 | with a duplicated id only the first copy is replaced, unlike replace-by-id |
| Coupons.CouponValue | src/pages/dashboard/Coupons.tsx:112 | the value is shown as a percentage iff the type is percentage, else in rupees |
| Coupons.CouponsPage.constructor | src/pages/dashboard/Coupons.tsx:26-31 | starts from the stored coupons with nothing pending |
| Coupons.CouponsPage.HandleSave | src/pages/dashboard/Coupons.tsx:33-46 | the list becomes the saved list, and the dialogs and selection are untouched |
| Coupons.CouponsPage.HandleEdit | src/pages/dashboard/Coupons.tsx:48-51 | selects the coupon and opens the dialog |
| Coupons.CouponsPage.HandleDelete | src/pages/dashboard/Coupons.tsx:53-56 | records the pending id and opens the confirmation |
| Coupons.CouponsPage.ConfirmDelete | src/pages/dashboard/Coupons.tsx:58-67 | a truthy pending id removes all coupons with it and is cleared; the confirmation closes in every case |
| Coupons.DeleteOfEmptyIdRemovesNothing | src/pages/dashboard/Coupons.tsx:59 | an empty pending id is falsy: nothing is removed, but the dialog closes |
| Tickets.UserName | src/pages/dashboard/Tickets.tsx:32-35 | the first matching user's name, otherwise the raw user id, also while the users are not loaded |
| Tickets.TicketStats | src/pages/dashboard/Tickets.tsx:120-125 | the total is the length, and the open, in-progress and resolved counts sum to at most the total |
| Tickets.ReplyMovesOpenToInProgress | src/pages/dashboard/Tickets.tsx:120-125 | a replied open ticket counts as in progress instead of open |
| Tickets.TicketsPage.constructor | src/pages/dashboard/Tickets.tsx:26-30 | the local list is the visible tickets |
| Tickets.TicketsPage.HandleAdd | src/pages/dashboard/Tickets.tsx:37-40 | clears the selection and opens the dialog |
| Tickets.TicketsPage.HandleEdit | src/pages/dashboard/Tickets.tsx:42-45 | selects the ticket and opens the dialog |
| Tickets.TicketsPage.HandleSave | src/pages/dashboard/Tickets.tsx:47-57 | while a ticket is selected, tickets with the saved id are replaced; otherwise the ticket is appended; then the dialog closes and the selection clears |
| Tickets.TicketsPage.HandleDelete | src/pages/dashboard/Tickets.tsx:59-62 | removes exactly the tickets with that id, at once |
| OrderTracking.ActiveIndex | src/pages/OrderTracking.tsx:22-24 | the position of the status among the steps, or -1 iff no step has it |
| OrderTracking.ActiveIndexOfEachStep | src/pages/OrderTracking.tsx:12-26 | each step id selects its own position, and "placed" gives 0 |
| OrderTracking.ViewOf | src/pages/OrderTracking.tsx:62-77 | a step is completed iff its index ≤ the active index, current iff equal, and has a connector iff it is not the last |
| OrderTracking.Views | src/pages/OrderTracking.tsx:60-77 | one view per step, each classified against the status's active index |
| OrderTracking.ViewsAreConsistent | src/pages/OrderTracking.tsx:62-77 | at most one step is current, the current step is completed, the completed steps form a prefix, and every step but the last has a connector |
| OrderTracking.UnknownStatusCompletesNothing | src/pages/OrderTracking.tsx:62-63 | a status outside the steps completes nothing |
| OrderTracking.PlacedOrderView | src/pages/OrderTracking.tsx:12-63 | for the fixed status only the first step is completed and current |
| Collections.FilterMembers | src/components/AppSidebar.tsx:63 | filter keeps exactly the elements satisfying the predicate |
| Collections.FilterMultiset | src/hooks/useFilteredData.tsx:27-29 | filter keeps every occurrence of a satisfying element and no occurrence of any other |
| Collections.FindIndex | src/pages/dashboard/Coupons.tsx:34 | findIndex returns the first matching index, or -1 iff none matches |
| Collections.Find | src/contexts/CartContext.tsx:39 | find returns the first match, or nothing iff none matches |
| Collections.MapWhere | src/contexts/CartContext.tsx:45-49 | a conditional map rewrites exactly the matching elements and keeps the length |
| Collections.SumAppend | src/contexts/CartContext.tsx:94-97 | a reduce-sum over a concatenation is the sum of the parts |
| Collections.SumUpdate | src/contexts/CartContext.tsx:94-97 | changing one element changes the sum by the difference |
| Collections.DisjointCountsBounded | src/pages/dashboard/Tickets.tsx:122-124 | three mutually exclusive counts sum to at most the length |
| Text.Lower | src/components/CRUDTable.tsx:48 | toLowerCase keeps the length and maps each character |
| Text.LowerIdempotent | src/components/CRUDTable.tsx:48 | lower-casing twice is lower-casing once |
| Text.TrimEmptyIffBlank | src/pages/Checkout.tsx:36 | a string trims to "" iff it consists only of whitespace |

## Left out

- Network, JWT decoding and `JSON.parse` are parameters: the login, permission and refresh
  requests, the token decoder and the parser are outcomes passed in, not computations.
- The GraphQL transport with its refresh queue and retries is not part of this model. It is
  concurrent and networked.
- Encryption in local storage: AES through a foreign library. A slot holds a value or nothing.
- The raw local-storage reads of `useLocalStorage`, and its window events, are left out. So is
  the cart's persistence to `localStorage`: they are browser storage wrappers.
- Clocks and randomness are parameters: every `Date.now()` id is a `stamp` string and every ISO
  timestamp a `now` string.
- Floating point is left out.
  - Ad revenue and its sum are not modelled; revenue is a `real` that is only copied or reset.
  - Shop rating and coordinates are `real` values that are only copied.
  - Prices, quantities, amounts, balances and discount values are integers. Catalogue prices that
    are not whole rupees are not modelled.
- JWT claims that the token lacks are modelled as "". Every consumer treats "" and undefined
  alike, except one edge of the row filter: a row with no `user_id` matches a user with no id.
- A server permission record whose module is `__proto__` is not modelled separately: JavaScript
  objects treat that key specially, and the map does not.
- A non-null JSON value in a permission array that is not a record is read as a record with every
  property absent. A hole written past the end of a permission list by the user form is modelled
  the same way.
- `toLowerCase` maps only the ASCII letters. Case mappings outside ASCII are not modelled.
- Toasts other than the login and checkout ones are not modelled, nor are rendering, icons,
  animations and the activity-log entries that `addLog` prepends.
- The ticket dialog's first-render literal has keys that do not belong to the ticket type
  (`userId`, `userName`, `message`). The constructor uses the type's own fields with empty
  values; the effect replaces the literal before any submit.
- The tickets page captures its local list from the visible tickets of its first render only.
  The constructor takes that list. A later reload of the data does not reach the page, and that
  is not modelled.
- The tickets page opens the ticket dialog without a mode. The reply path is reachable only from
  callers that pass reply mode, and the model covers each dialog mode on its own.
- Checkout's payment-method choice is not modelled: nothing reads it. The initial address is
  always "", because the user has no `address` field; the model takes the address as a
  parameter.
- The timer-driven notification scheduler and chatbot are not part of this model.
- CrudTable.SearchFiltered: each row is seen through `fields`, the `String(...)` of its property
  values. The object-to-string conversion of nested values is not modelled.

## Findings

| source | as written | input that shows it | evidently intended | confidence | as-written member | corrected member |
|---|---|---|---|---|---|---|
| src/pages/dashboard/GiftCards.tsx:30-46 | `logAction` is destructured from the activity-log hook, which returns only `logs` and `addLog` (src/hooks/useActivityLog.tsx:34), so each save throws after the list update; Ads, Offers and Banners do the same | edit any card and save | the dialog closes and the selection is cleared after a save | not executed | Lists.SaveAsWrittenKeepsDialogOpen | Lists.ListPage.HandleSave |
| src/pages/dashboard/GiftCards.tsx:58-63 | the same undefined call throws inside `confirmDelete`, before the confirmation closes and the pending id is reset | ask to delete any card and confirm | the confirmation closes and the pending id returns to '' | not executed | Lists.DeleteAsWrittenKeepsPendingId | Lists.ListPage.ConfirmDelete |
| src/pages/Login.tsx:22-24 | `login` is async and not awaited, so `success` is a Promise and always truthy | wrong credentials | the failure toast for a rejected login | not executed | LoginPage.AsWrittenDiffersFromAwaited | LoginPage.HandleSubmitAwaited |
| src/pages/Login.tsx:31-32 | the role is read from the raw `user` slot of local storage, which is empty before the session effect runs and afterwards holds ciphertext | first login as a customer | land on /customer | not executed | LoginPage.FirstLoginLandsOnDashboard | LoginPage.HandleSubmitAwaited |
