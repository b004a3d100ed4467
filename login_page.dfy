/** The login page's submit handler: the toast it shows and where it
    navigates, both as the handler is written and as evidently intended. */
module LoginPage {
  import opened Collections
  import opened AuthContext

  /** The landing path for a role, the if/else chain on the role string. */
  function LandingPath(role: Option<string>): (path: string)
    ensures role == Some("customer") ==> path == "/customer"
    ensures role == Some("delivery_agent") ==> path == "/dashboard/delivery"
    ensures role == Some("support") ==> path == "/dashboard/tickets"
    ensures role != Some("customer") && role != Some("delivery_agent") && role != Some("support") ==>
      path == "/dashboard"
  {
    if role == Some("customer") then "/customer"
    else if role == Some("delivery_agent") then "/dashboard/delivery"
    else if role == Some("support") then "/dashboard/tickets"
    else "/dashboard"
  }

  /** Every landing path other than the customer's lies under `/dashboard`. */
  lemma LandingPathsUnderDashboard(role: Option<string>)
    ensures LandingPath(role) == "/customer" || "/dashboard" <= LandingPath(role)
  {
  }

  /** What the raw (not decrypted) `user` slot of local storage holds when
      the handler reads it: nothing, the encrypted text the session writes,
      or a plain JSON object with an optional role. */
  datatype RawUserSlot = EmptySlot | Ciphertext | PlainJson(role: Option<string>)

  datatype Toast = LoginSuccessful | LoginFailed

  /** The handler's effects in order: the toast, the navigation, and whether
      it threw before navigating. */
  datatype Effects = Effects(toast: Toast, navigation: Option<string>, threw: bool)

  /** `handleSubmit` as written: `login` is not awaited, so `success` is a
      pending Promise, always truthy, and `loginResult` (what the Promise
      will resolve to) plays no part. The role is read synchronously from
      the raw slot: an empty slot parses "{}" (no role); the encrypted text
      is not JSON and `JSON.parse` throws after the toast. */
  function HandleSubmit(loginResult: bool, slot: RawUserSlot): (e: Effects)
    ensures e.toast == LoginSuccessful
    ensures e.threw <==> slot == Ciphertext
    ensures e.threw ==> e.navigation.None?
  {
    var success := true;
    if success then
      match slot
      case EmptySlot => Effects(LoginSuccessful, Some(LandingPath(None)), false)
      case Ciphertext => Effects(LoginSuccessful, None, true)
      case PlainJson(role) => Effects(LoginSuccessful, Some(LandingPath(role)), false)
    else Effects(LoginFailed, None, false)
  }

  /** The failure toast is unreachable, and the outcome does not depend on
      whether the credentials were accepted. */
  lemma FailureToastUnreachable(slot: RawUserSlot)
    ensures HandleSubmit(false, slot).toast == LoginSuccessful
    ensures HandleSubmit(false, slot) == HandleSubmit(true, slot)
  {
  }

  /** On a first login (nothing stored yet) every role, the customer's
      included, lands on `/dashboard`. */
  lemma FirstLoginLandsOnDashboard(loginResult: bool)
    ensures HandleSubmit(loginResult, EmptySlot).navigation == Some("/dashboard")
  {
  }

  /** `handleSubmit` with `login` awaited and the role taken from the user
      that `login` just set. */
  function HandleSubmitAwaited(loginResult: bool, user: Option<User>): (e: Effects)
    ensures !e.threw
    ensures e.toast == LoginSuccessful <==> loginResult
    ensures !loginResult ==> e.navigation.None?
    ensures loginResult && user.Some? ==> e.navigation == Some(LandingPath(Some(user.value.role)))
  {
    if loginResult then
      Effects(LoginSuccessful, Some(LandingPath(if user.Some? then Some(user.value.role) else None)), false)
    else Effects(LoginFailed, None, false)
  }

  /** The discrepancy: rejected credentials still show "Login Successful"
      and navigate, where the awaited handler shows "Login Failed" and
      stays; and an accepted customer is sent to `/dashboard`, not
      `/customer`. */
  lemma AsWrittenDiffersFromAwaited(customer: User)
    requires customer.role == "customer"
    ensures HandleSubmit(false, EmptySlot).toast == LoginSuccessful
    ensures HandleSubmitAwaited(false, None).toast == LoginFailed
    ensures HandleSubmit(true, EmptySlot).navigation == Some("/dashboard")
    ensures HandleSubmitAwaited(true, Some(customer)).navigation == Some("/customer")
  {
  }
}
