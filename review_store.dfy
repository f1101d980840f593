/**
 * The persisted map of the user's own reviews, keyed by Steam app id.
 * `addReview` replaces the whole entry of one app id.
 */
module ReviewStore {
  import opened Wrappers

  datatype Status = Played | Beaten | Dropped

  /** One review: a 0-10 rating, a status, a comment and the optional exclusion flag. */
  datatype GameReview = GameReview(rating: int, status: Status, comment: string, excluded: Option<bool>)

  type Reviews = map<int, GameReview>

  /** `{ ...reviews, [appid]: review }`. */
  function WithReview(reviews: Reviews, appid: int, review: GameReview): (r: Reviews)
    ensures appid in r && r[appid] == review
    ensures r.Keys == reviews.Keys + {appid}
    ensures forall a :: a in reviews && a != appid ==> r[a] == reviews[a]
  {
    reviews[appid := review]
  }

  /** Adding the same review twice is adding it once; a later review for the same app wins outright. */
  lemma WithReviewIdempotent(reviews: Reviews, appid: int, first: GameReview, second: GameReview)
    ensures WithReview(WithReview(reviews, appid, first), appid, first) == WithReview(reviews, appid, first)
    ensures WithReview(WithReview(reviews, appid, first), appid, second) == WithReview(reviews, appid, second)
  {
  }

  /** Reviews of different apps do not interfere: the order of the two additions does not matter. */
  lemma WithReviewCommutes(reviews: Reviews, a: int, ra: GameReview, b: int, rb: GameReview)
    requires a != b
    ensures WithReview(WithReview(reviews, a, ra), b, rb) == WithReview(WithReview(reviews, b, rb), a, ra)
  {
  }

  /** The entry is replaced, not merged: an earlier `excluded` flag does not survive a review without one. */
  lemma WithReviewReplaces(reviews: Reviews, appid: int, review: GameReview)
    requires appid in reviews && reviews[appid].excluded == Some(true)
    requires review.excluded.None?
    ensures WithReview(reviews, appid, review)[appid].excluded.None?
  {
  }

  /** The store: its `reviews` field, replaced by every `addReview`. */
  class Store {
    var reviews: Reviews

    constructor ()
      ensures reviews == map[]
    {
      reviews := map[];
    }

    method AddReview(appid: int, review: GameReview)
      modifies this
      ensures reviews == WithReview(old(reviews), appid, review)
    {
      reviews := WithReview(reviews, appid, review);
    }
  }
}
