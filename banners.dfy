/** The banners page: saving and deleting banners. */
module Banners {
  import opened Collections
  import opened Lists

  datatype Banner = Banner(id: string, title: string, description: string, image: string, link: string, active: bool)

  function BannerId(banner: Banner): string { banner.id }

  /** A new banner gets the id `banner<stamp>`. */
  function CreatedBanner(banner: Banner, stamp: string): Banner
  {
    banner.(id := "banner" + stamp)
  }

  function Saved(banners: seq<Banner>, banner: Banner, stamp: string): seq<Banner>
  {
    Upsert(banners, banner, BannerId, CreatedBanner(banner, stamp))
  }

  function Deleted(banners: seq<Banner>, pending: string): seq<Banner>
  {
    WithoutId(banners, BannerId, pending)
  }

  /** Saving a listed banner replaces it in place, keeping the length; any
      other is appended as a copy under the fresh id. */
  lemma SaveBanner(banners: seq<Banner>, banner: Banner, stamp: string)
    ensures banner.id != "" && Listed(banners, BannerId, banner.id) ==>
      |Saved(banners, banner, stamp)| == |banners| &&
      (forall i :: 0 <= i < |banners| && banners[i].id != banner.id ==> Saved(banners, banner, stamp)[i] == banners[i]) &&
      (forall i :: 0 <= i < |banners| && banners[i].id == banner.id ==> Saved(banners, banner, stamp)[i] == banner)
    ensures banner.id == "" || !Listed(banners, BannerId, banner.id) ==>
      Saved(banners, banner, stamp) == banners + [banner.(id := "banner" + stamp)]
  {
    if banner.id != "" && Listed(banners, BannerId, banner.id) {
      UpsertExisting(banners, banner, BannerId, CreatedBanner(banner, stamp));
    } else {
      UpsertNew(banners, banner, BannerId, CreatedBanner(banner, stamp));
    }
  }

  /** A banner saved as new and deleted right after is gone again, when
      the fresh id was unused. */
  lemma SaveThenDeleteNew(banners: seq<Banner>, banner: Banner, stamp: string)
    requires banner.id == "" || !Listed(banners, BannerId, banner.id)
    requires !Listed(banners, BannerId, "banner" + stamp)
    ensures Deleted(Saved(banners, banner, stamp), "banner" + stamp) == banners
  {
    UpsertNew(banners, banner, BannerId, CreatedBanner(banner, stamp));
    DeleteUndoesAppend(banners, BannerId, CreatedBanner(banner, stamp));
  }
}
