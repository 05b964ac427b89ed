/** The GET handler of app/api/get-latest-image/route.ts: a guard on the
    userId query parameter, then the public URL of the user's blob, built
    from a fixed storage host. The store is not consulted. */
module LatestImage {
  import opened Wrappers
  import Affixes

  /** The public blob-storage host the URL is built on. */
  const BlobBase := "https://7cdwn1fzya4iumzs.public.blob.vercel-storage.com"

  const MissingUserId := "userId is required"

  /** The JSON response: an error with its HTTP status, or (HTTP 200) the
      image URL and a timestamp. */
  datatype Response =
    | Failure(status: nat, error: string)
    | Found(imageUrl: string, createdAt: string)

  /** The public URL of a user's latest image. */
  function ImageUrl(userId: string): string {
    BlobBase + "/images/" + userId + ".png"
  }

  /** Distinct user ids get distinct URLs, and equal ones the same URL. */
  lemma ImageUrlInjective(u1: string, u2: string)
    ensures ImageUrl(u1) == ImageUrl(u2) <==> u1 == u2
  {
    Affixes.AffixedInjective(BlobBase + "/images/", u1, u2, ".png");
  }

  /** The GET handler; `userId` is the query parameter (absent when the URL
      has none) and `now` the clock reading the response reports. */
  function Get(userId: Option<string>, now: string): (r: Response)
    // 400 exactly when the parameter is absent or empty
    ensures r.Failure? <==> !Truthy(userId)
    ensures r.Failure? ==> r.status == 400 && r.error == MissingUserId
    // no not-found outcome: every non-empty id gets its URL, stored image or not
    ensures r.Found? ==> r.imageUrl == ImageUrl(userId.value) && r.createdAt == now
  {
    if !Truthy(userId) then Failure(400, MissingUserId)
    else Found(ImageUrl(userId.value), now)
  }
}
