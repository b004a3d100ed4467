/** The coupons page: the index-based save, the guarded delete and the
    value column. */
module Coupons {
  import opened Collections
  import opened Lists

  datatype Coupon = Coupon(id: string, code: string, kind: string, value: int, minOrder: int, maxDiscount: int,
                           active: bool, description: Option<string>)

  function CouponId(coupon: Coupon): string { coupon.id }

  /** The coupons after `handleSave`: the first coupon with the same id is
      replaced, or the coupon is appended under its own id. */
  function SavedCoupons(coupons: seq<Coupon>, coupon: Coupon): (r: seq<Coupon>)
    ensures Listed(coupons, CouponId, coupon.id) ==>
      var k := FindIndex(HasId(CouponId, coupon.id), coupons);
      0 <= k < |coupons| && coupons[k].id == coupon.id && r == coupons[k := coupon] &&
      forall j :: 0 <= j < k ==> coupons[j].id != coupon.id
    ensures !Listed(coupons, CouponId, coupon.id) ==> r == coupons + [coupon]
  {
    var k := FindIndex(HasId(CouponId, coupon.id), coupons);
    if k >= 0 then coupons[k := coupon] else coupons + [coupon]
  }

  /** With unique ids the index-based save is the replace-by-id of the
      other pages. */
  lemma SaveMatchesReplaceById(coupons: seq<Coupon>, coupon: Coupon)
    requires UniqueIds(coupons, CouponId) && Listed(coupons, CouponId, coupon.id)
    ensures SavedCoupons(coupons, coupon) == ReplaceById(coupons, coupon, CouponId)
  {
    var k := FindIndex(HasId(CouponId, coupon.id), coupons);
    assert forall j :: 0 <= j < |coupons| && j != k ==> coupons[j].id != coupon.id;
  }

  /** With a duplicated id only the first copy is replaced. */
  lemma OnlyFirstDuplicateReplaced(first: Coupon, second: Coupon, coupon: Coupon)
    requires first.id == second.id == coupon.id && second != coupon
    ensures SavedCoupons([first, second], coupon) == [coupon, second]
    ensures SavedCoupons([first, second], coupon) != ReplaceById([first, second], coupon, CouponId)
  {
    assert ReplaceById([first, second], coupon, CouponId)[1] == coupon;
  }

  /** `type === 'percentage' ? v% : ₹v`. */
  datatype ValueShown = Percent(amount: int) | Rupees(amount: int)

  function CouponValue(coupon: Coupon): (v: ValueShown)
    ensures v.amount == coupon.value
    ensures v.Percent? <==> coupon.kind == "percentage"
  {
    if coupon.kind == "percentage" then Percent(coupon.value) else Rupees(coupon.value)
  }

  /** JavaScript truthiness of the pending id (`string | null`). */
  predicate PendingSet(pending: Option<string>)
  {
    pending.Some? && pending.value != ""
  }

  /** The page state. The save itself does not close the dialog. */
  class CouponsPage {
    var coupons: seq<Coupon>
    var dialogOpen: bool
    var deleteDialogOpen: bool
    var selected: Option<Coupon>
    var pendingId: Option<string>

    constructor (stored: seq<Coupon>)
      ensures coupons == stored && !dialogOpen && !deleteDialogOpen && selected == None && pendingId == None
    {
      coupons := stored;
      dialogOpen := false;
      deleteDialogOpen := false;
      selected := None;
      pendingId := None;
    }

    /** `handleSave`: copies the list and assigns the first matching index. */
    method HandleSave(coupon: Coupon)
      modifies this
      ensures coupons == SavedCoupons(old(coupons), coupon)
      ensures dialogOpen == old(dialogOpen) && selected == old(selected)
      ensures deleteDialogOpen == old(deleteDialogOpen) && pendingId == old(pendingId)
    {
      var existingIndex := FindIndex(HasId(CouponId, coupon.id), coupons);
      if existingIndex >= 0 {
        var updated := coupons;
        updated := updated[existingIndex := coupon];
        coupons := updated;
      } else {
        coupons := coupons + [coupon];
      }
    }

    method HandleEdit(coupon: Coupon)
      modifies this
      ensures selected == Some(coupon) && dialogOpen
      ensures coupons == old(coupons) && deleteDialogOpen == old(deleteDialogOpen) && pendingId == old(pendingId)
    {
      selected := Some(coupon);
      dialogOpen := true;
    }

    method HandleDelete(id: string)
      modifies this
      ensures pendingId == Some(id) && deleteDialogOpen
      ensures coupons == old(coupons) && dialogOpen == old(dialogOpen) && selected == old(selected)
    {
      pendingId := Some(id);
      deleteDialogOpen := true;
    }

    /** `confirmDelete`: with a pending id the coupons with it are removed
        and the id cleared; the confirmation closes in every case. */
    method ConfirmDelete()
      modifies this
      ensures PendingSet(old(pendingId)) ==>
        coupons == WithoutId(old(coupons), CouponId, old(pendingId).value) && pendingId == None
      ensures !PendingSet(old(pendingId)) ==> coupons == old(coupons) && pendingId == old(pendingId)
      ensures !deleteDialogOpen
      ensures dialogOpen == old(dialogOpen) && selected == old(selected)
    {
      if PendingSet(pendingId) {
        coupons := WithoutId(coupons, CouponId, pendingId.value);
        pendingId := None;
      }
      deleteDialogOpen := false;
    }
  }

  /** Asking to delete a coupon whose id is "" removes nothing: the empty
      pending id is falsy. */
  method DeleteOfEmptyIdRemovesNothing(stored: seq<Coupon>) returns (after: seq<Coupon>, open: bool)
    ensures after == stored && !open
  {
    var page := new CouponsPage(stored);
    page.HandleDelete("");
    page.ConfirmDelete();
    after := page.coupons;
    open := page.deleteDialogOpen;
  }
}
