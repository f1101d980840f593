/**
 * The card of one owned Steam game: the hours badge, the header image and
 * the merge of a partial edit with the existing review before it is stored.
 */
module GameCard {
  import opened Wrappers
  import Js
  import Steam
  import opened ReviewStore

  /** `Partial<GameReview>`: `None` for an absent key; `excluded` may be present with `undefined`. */
  datatype ReviewPatch = ReviewPatch(
    rating: Option<int>, status: Option<Status>, comment: Option<string>, excluded: Option<Option<bool>>)

  function EmptyReviewPatch(): ReviewPatch {
    ReviewPatch(None, None, None, None)
  }

  /** The status the segmented control shows: the review's, else played. */
  function ShownStatus(review: Option<GameReview>): Status {
    if review.Some? then review.value.status else Played
  }

  /** The rating the stars show: the review's (a 0 shows as 0), else 0. */
  function ShownRating(review: Option<GameReview>): int {
    if review.Some? then review.value.rating else 0
  }

  /**
   * `handleUpdate`: rating, status and comment default to the existing
   * review's (or 0, played, empty) and the patch spreads over them; the
   * existing `excluded` flag is not among the defaults.
   */
  function Merged(review: Option<GameReview>, u: ReviewPatch): (r: GameReview)
    ensures r.rating == u.rating.GetOr(ShownRating(review))
    ensures r.status == u.status.GetOr(ShownStatus(review))
    ensures u.comment.Some? ==> r.comment == u.comment.value
    ensures u.comment.None? && review.Some? ==> r.comment == review.value.comment
    ensures u.comment.None? && review.None? ==> r.comment == ""
    ensures r.excluded == u.excluded.GetOr(None)
  {
    GameReview(
      u.rating.GetOr(if review.Some? then review.value.rating else 0),
      u.status.GetOr(if review.Some? then review.value.status else Played),
      u.comment.GetOr(if review.Some? then review.value.comment else ""),
      u.excluded.GetOr(None))
  }

  /** Merging an empty patch keeps the review except its exclusion flag; with no review it yields the shown defaults. */
  lemma MergeEmptyPatch(review: Option<GameReview>)
    ensures review.Some? ==> Merged(review, EmptyReviewPatch()) == review.value.(excluded := None)
    ensures review.None? ==> Merged(review, EmptyReviewPatch()) == GameReview(0, Played, "", None)
  {
  }

  /** A patch naming every field gives exactly its values whatever the existing review. */
  lemma MergeFullPatch(review: Option<GameReview>, rating: int, status: Status, comment: string, excluded: Option<bool>)
    ensures Merged(review, ReviewPatch(Some(rating), Some(status), Some(comment), Some(excluded))) ==
      GameReview(rating, status, comment, excluded)
  {
  }

  /** Changing the status of an excluded game through the card stores it without the flag. */
  lemma StatusChangeDropsExclusion(reviews: Reviews, appid: int, s: Status)
    requires appid in reviews && reviews[appid].excluded == Some(true)
    ensures var stored := WithReview(reviews, appid, Merged(Some(reviews[appid]), ReviewPatch(None, Some(s), None, None)));
      && stored[appid].excluded.None?
      && stored[appid].rating == reviews[appid].rating
      && stored[appid].comment == reviews[appid].comment
      && stored[appid].status == s
  {
  }

  /** `Math.round(playtime_forever / 60)`: the nearest whole hour, halves up. */
  function HoursPlayed(playtimeMinutes: int): (h: int)
    ensures 60 * h - 30 <= playtimeMinutes < 60 * h + 30
  {
    Js.RoundDiv(playtimeMinutes, 60)
  }

  /** The card's image: the Steam CDN header for the app id. */
  function ImageUrl(g: Steam.SteamGame): string {
    Steam.HeaderImageUrl(g.appid)
  }

  /** The image depends on the app id only, and different apps get different images. */
  lemma ImageUrlByAppId(g1: Steam.SteamGame, g2: Steam.SteamGame)
    ensures ImageUrl(g1) == ImageUrl(g2) <==> g1.appid == g2.appid
  {
    if ImageUrl(g1) == ImageUrl(g2) {
      Steam.HeaderImageUrlInjective(g1.appid, g2.appid);
    }
  }
}
