/** The offers page: saving and deleting offers and the discount shown. */
module Offers {
  import opened Collections
  import opened Lists

  datatype Offer = Offer(id: string, title: string, description: string, target: string, discountType: string,
                         discountValue: int, minOrder: int, validFrom: string, validTo: string, active: bool,
                         targetId: Option<string>)

  function OfferId(offer: Offer): string { offer.id }

  /** A new offer gets the id `offer<stamp>`; nothing else changes. */
  function CreatedOffer(offer: Offer, stamp: string): Offer
  {
    offer.(id := "offer" + stamp)
  }

  function Saved(offers: seq<Offer>, offer: Offer, stamp: string): seq<Offer>
  {
    Upsert(offers, offer, OfferId, CreatedOffer(offer, stamp))
  }

  function Deleted(offers: seq<Offer>, pending: string): seq<Offer>
  {
    WithoutId(offers, OfferId, pending)
  }

  /** Saving a listed offer replaces it in place; any other is appended as
      a copy under the fresh id. */
  lemma SaveOffer(offers: seq<Offer>, offer: Offer, stamp: string)
    ensures offer.id != "" && Listed(offers, OfferId, offer.id) ==>
      |Saved(offers, offer, stamp)| == |offers| &&
      (forall i :: 0 <= i < |offers| && offers[i].id != offer.id ==> Saved(offers, offer, stamp)[i] == offers[i]) &&
      (forall i :: 0 <= i < |offers| && offers[i].id == offer.id ==> Saved(offers, offer, stamp)[i] == offer)
    ensures offer.id == "" || !Listed(offers, OfferId, offer.id) ==>
      Saved(offers, offer, stamp) == offers + [offer.(id := "offer" + stamp)]
  {
    if offer.id != "" && Listed(offers, OfferId, offer.id) {
      UpsertExisting(offers, offer, OfferId, CreatedOffer(offer, stamp));
    } else {
      UpsertNew(offers, offer, OfferId, CreatedOffer(offer, stamp));
    }
  }

  /** Deleting removes exactly the offers with the pending id, in order. */
  lemma DeleteOffer(offers: seq<Offer>, pending: string)
    ensures !Listed(Deleted(offers, pending), OfferId, pending)
    ensures forall i :: 0 <= i < |offers| && offers[i].id != pending ==> offers[i] in Deleted(offers, pending)
    ensures IsSubsequence(Deleted(offers, pending), offers)
  {
    WithoutIdExactly(offers, OfferId, pending);
  }

  /** How the discount column shows the value. */
  datatype Discount = PercentOff(value: int) | RupeesOff(value: int)

  function DiscountShown(offer: Offer): (d: Discount)
    ensures d.value == offer.discountValue
    ensures d.PercentOff? <==> offer.discountType == "percentage"
  {
    if offer.discountType == "percentage" then PercentOff(offer.discountValue) else RupeesOff(offer.discountValue)
  }
}
