/** The ads page: saving and deleting ads, the active and clicks figures
    and the status badge. Revenue is a real number and only copied. */
module Ads {
  import opened Collections
  import opened Lists

  datatype Position = Top | Sidebar | Bottom

  datatype Ad = Ad(id: string, title: string, image: string, link: string, duration: int, position: Position,
                   active: bool, revenue: real, clicks: int)

  function AdId(ad: Ad): string { ad.id }

  /** A new ad gets the id `ad<stamp>` and starts with no revenue and no clicks. */
  function CreatedAd(ad: Ad, stamp: string): Ad
  {
    ad.(id := "ad" + stamp, revenue := 0.0, clicks := 0)
  }

  function Saved(ads: seq<Ad>, ad: Ad, stamp: string): seq<Ad>
  {
    Upsert(ads, ad, AdId, CreatedAd(ad, stamp))
  }

  function Deleted(ads: seq<Ad>, pending: string): seq<Ad>
  {
    WithoutId(ads, AdId, pending)
  }

  function IsActive(ad: Ad): bool { ad.active }
  function Clicks(ad: Ad): int { ad.clicks }

  /** "Active Ads" and "Total Clicks". */
  function ActiveAds(ads: seq<Ad>): nat { Count(IsActive, ads) }
  function TotalClicks(ads: seq<Ad>): int { Sum(Clicks, ads) }

  /** Saving a listed ad replaces it in place. */
  lemma SaveExistingAd(ads: seq<Ad>, ad: Ad, stamp: string)
    requires ad.id != "" && Listed(ads, AdId, ad.id)
    ensures |Saved(ads, ad, stamp)| == |ads|
    ensures forall i :: 0 <= i < |ads| && ads[i].id == ad.id ==> Saved(ads, ad, stamp)[i] == ad
    ensures forall i :: 0 <= i < |ads| && ads[i].id != ad.id ==> Saved(ads, ad, stamp)[i] == ads[i]
  {
    UpsertExisting(ads, ad, AdId, CreatedAd(ad, stamp));
  }

  /** Saving any other ad appends it with its counters reset, so the
      clicks total is unchanged whatever clicks the form carried. */
  lemma SaveNewAd(ads: seq<Ad>, ad: Ad, stamp: string)
    requires ad.id == "" || !Listed(ads, AdId, ad.id)
    ensures Saved(ads, ad, stamp) == ads + [CreatedAd(ad, stamp)]
    ensures CreatedAd(ad, stamp).revenue == 0.0 && CreatedAd(ad, stamp).clicks == 0
    ensures TotalClicks(Saved(ads, ad, stamp)) == TotalClicks(ads)
    ensures ActiveAds(Saved(ads, ad, stamp)) == ActiveAds(ads) + (if ad.active then 1 else 0)
  {
    UpsertNew(ads, ad, AdId, CreatedAd(ad, stamp));
    SumAppend(Clicks, ads, [CreatedAd(ad, stamp)]);
    FilterAppend(IsActive, ads, [CreatedAd(ad, stamp)]);
  }

  /** Deleting removes exactly the ads with the pending id. */
  lemma DeleteAd(ads: seq<Ad>, pending: string)
    ensures !Listed(Deleted(ads, pending), AdId, pending)
    ensures forall i :: 0 <= i < |ads| && ads[i].id != pending ==> ads[i] in Deleted(ads, pending)
    ensures ActiveAds(Deleted(ads, pending)) <= ActiveAds(ads)
  {
    WithoutIdExactly(ads, AdId, pending);
    DeleteLowersCount(IsActive, ads, AdId, pending);
  }
}
