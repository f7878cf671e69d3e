/** Image rows (the `images` table), shared by rooms and motels: each owner's
    list of URLs. The URL check (`new URL(url)` with an http: or https:
    protocol) is a parameter. */
module ImageRows {
  import opened Common

  /** `validateImageUrls` passes: no URL is rejected. */
  predicate AllValidUrls(urls: seq<string>, isValidUrl: string -> bool) {
    forall u :: u in urls ==> isValidUrl(u)
  }

  /** The image rows of `owner` after "delete them all, then save `urls`". */
  function ReplaceImages(images: map<Id, seq<string>>, owner: Id, urls: seq<string>): (after: map<Id, seq<string>>)
    ensures urls == [] ==> owner !in after
    ensures urls != [] ==> owner in after && after[owner] == urls
    ensures forall k :: k != owner ==> (k in after <==> k in images)
    ensures forall k :: k != owner && k in images ==> after[k] == images[k]
  {
    if urls == [] then images - {owner} else images[owner := urls]
  }

  /** Replacing with the same list twice is replacing once. */
  lemma ReplaceImagesIdempotent(images: map<Id, seq<string>>, owner: Id, urls: seq<string>)
    ensures ReplaceImages(ReplaceImages(images, owner, urls), owner, urls) == ReplaceImages(images, owner, urls)
  {
  }
}
