/**
 * The year-summary card: from the games played in the last year and the
 * user's reviews, the number of games, the playtime, the counts per status
 * and the three best-rated games. Excluded games take part in nothing.
 */
module Summary {
  import opened Wrappers
  import opened Steam
  import opened ReviewStore
  import Sorting
  import Filtering

  /** The session user: name and image may be missing. */
  datatype User = User(name: Option<string>, image: Option<string>)

  datatype ShownUser = ShownUser(name: string, image: string)

  /** `{ ...game, rating }`: a played game with the rating of its review. */
  datatype RatedGame = RatedGame(game: SteamGame, rating: int)

  datatype YearSummary = YearSummary(
    user: ShownUser,
    totalGames: nat,
    totalPlaytime: int,
    beatenCount: nat,
    droppedCount: nat,
    playedCount: nat,
    topGames: seq<RatedGame>)

  /** A game whose review carries a truthy `excluded`. */
  predicate Excluded(reviews: Reviews, appid: int) {
    appid in reviews && reviews[appid].excluded == Some(true)
  }

  /** `allGames.filter(g => !reviews[g.appid]?.excluded)`. */
  function Kept(games: seq<SteamGame>, reviews: Reviews): (r: seq<SteamGame>)
    ensures |r| <= |games|
    ensures forall g :: g in r <==> g in games && !Excluded(reviews, g.appid)
  {
    if games == [] then []
    else (if Excluded(reviews, games[0].appid) then [] else [games[0]]) + Kept(games[1..], reviews)
  }

  /** A single element is kept or dropped on its own. */
  lemma KeptOne(g: SteamGame, reviews: Reviews)
    ensures Kept([g], reviews) == if Excluded(reviews, g.appid) then [] else [g]
  {
    assert [g][1..] == [];
  }

  /** The test `Kept` applies: not excluded. */
  function NotExcluded(reviews: Reviews): SteamGame -> bool {
    (g: SteamGame) => !Excluded(reviews, g.appid)
  }

  /** `Kept` is `Array.prototype.filter` with that test. */
  lemma {:induction false} KeptIsFilter(s: seq<SteamGame>, reviews: Reviews)
    ensures Kept(s, reviews) == Filtering.Filter(s, NotExcluded(reviews))
  {
    if s != [] {
      KeptIsFilter(s[1..], reviews);
    }
  }

  /** The filter keeps order and repetitions: it distributes over concatenation. */
  lemma KeptAppend(a: seq<SteamGame>, b: seq<SteamGame>, reviews: Reviews)
    ensures Kept(a + b, reviews) == Kept(a, reviews) + Kept(b, reviews)
  {
    KeptIsFilter(a + b, reviews);
    KeptIsFilter(a, reviews);
    KeptIsFilter(b, reviews);
    Filtering.FilterAppend(a, b, NotExcluded(reviews));
  }

  /** Filtering twice is filtering once: the statistics never see an excluded game. */
  lemma {:induction false} KeptIdempotent(games: seq<SteamGame>, reviews: Reviews)
    ensures Kept(Kept(games, reviews), reviews) == Kept(games, reviews)
  {
    if games != [] {
      KeptIdempotent(games[1..], reviews);
      var rest := Kept(games[1..], reviews);
      if !Excluded(reviews, games[0].appid) {
        var k := [games[0]] + rest;
        assert Kept(games, reviews) == k;
        assert k[0] == games[0] && k[1..] == rest;
        assert Kept(k, reviews) == [games[0]] + Kept(rest, reviews);
      } else {
        assert Kept(games, reviews) == rest;
      }
    }
  }

  /** How many of `games` have a review with status `s`. */
  function CountStatus(games: seq<SteamGame>, reviews: Reviews, s: Status): (n: nat)
    ensures n <= |games|
  {
    if games == [] then 0
    else
      var g := games[|games| - 1];
      CountStatus(games[..|games| - 1], reviews, s) + (if g.appid in reviews && reviews[g.appid].status == s then 1 else 0)
  }

  /** How many of `games` have a review at all. */
  function CountReviewed(games: seq<SteamGame>, reviews: Reviews): (n: nat)
    ensures n <= |games|
  {
    if games == [] then 0
    else CountReviewed(games[..|games| - 1], reviews) + (if games[|games| - 1].appid in reviews then 1 else 0)
  }

  /** Every reviewed game has exactly one status; unreviewed games have none. */
  lemma {:induction false} StatusCountsAddUp(games: seq<SteamGame>, reviews: Reviews)
    ensures CountStatus(games, reviews, Beaten) + CountStatus(games, reviews, Dropped) + CountStatus(games, reviews, Played)
      == CountReviewed(games, reviews)
  {
    if games != [] {
      StatusCountsAddUp(games[..|games| - 1], reviews);
    }
  }

  /** The games with a positive review rating, in the order of `games`. */
  function Rated(games: seq<SteamGame>, reviews: Reviews): (r: seq<RatedGame>)
    ensures |r| <= |games|
    ensures forall e :: e in r ==>
      && e.rating > 0 && e.game in games
      && e.game.appid in reviews && e.rating == reviews[e.game.appid].rating
    ensures forall g :: g in games && g.appid in reviews && reviews[g.appid].rating > 0 ==>
      RatedGame(g, reviews[g.appid].rating) in r
  {
    if games == [] then []
    else
      var g := games[|games| - 1];
      assert forall x :: x in games <==> x in games[..|games| - 1] || x == g;
      Rated(games[..|games| - 1], reviews)
        + (if g.appid in reviews && reviews[g.appid].rating > 0 then [RatedGame(g, reviews[g.appid].rating)] else [])
  }

  /** `(a, b) => b.rating - a.rating` is ascending order of the negated rating. */
  function NegRating(e: RatedGame): int {
    -e.rating
  }

  function Min(a: int, b: int): int {
    if a < b then a else b
  }

  /** `ratedGames.sort(...)` then `slice(0, 3)`. */
  function Top(rated: seq<RatedGame>): seq<RatedGame> {
    var sorted := Sorting.SortBy(rated, NegRating);
    sorted[..Min(3, |sorted|)]
  }

  /** The name falls back to "User" and the image to "" when missing or empty. */
  function ShowUser(u: User): (r: ShownUser)
    ensures r.name != ""
    ensures u.name.Some? && u.name.value != "" ==> r.name == u.name.value
    ensures !(u.name.Some? && u.name.value != "") ==> r.name == "User"
    ensures u.image.Some? && u.image.value != "" ==> r.image == u.image.value
    ensures !(u.image.Some? && u.image.value != "") ==> r.image == ""
  {
    ShownUser(
      if u.name.Some? && u.name.value != "" then u.name.value else "User",
      if u.image.Some? && u.image.value != "" then u.image.value else "")
  }

  /** The summary the page shows, or `None` while the games or the session user are missing. */
  function SummaryOf(games: Option<seq<SteamGame>>, user: Option<User>, reviews: Reviews): (r: Option<YearSummary>)
    ensures r.Some? <==> games.Some? && user.Some?
  {
    if games.None? || user.None? then None
    else
      var kept := Kept(games.value, reviews);
      Some(YearSummary(
        ShowUser(user.value), |kept|, TotalPlaytime(kept),
        CountStatus(kept, reviews, Beaten), CountStatus(kept, reviews, Dropped), CountStatus(kept, reviews, Played),
        Top(Rated(kept, reviews))))
  }

  /** What one more game adds to each tally. */
  lemma LoopStep(games: seq<SteamGame>, reviews: Reviews, i: int)
    requires 0 <= i < |games|
    ensures var g, p, q := games[i], games[..i], games[..i + 1];
      && CountStatus(q, reviews, Beaten) == CountStatus(p, reviews, Beaten) + (if g.appid in reviews && reviews[g.appid].status == Beaten then 1 else 0)
      && CountStatus(q, reviews, Dropped) == CountStatus(p, reviews, Dropped) + (if g.appid in reviews && reviews[g.appid].status == Dropped then 1 else 0)
      && CountStatus(q, reviews, Played) == CountStatus(p, reviews, Played) + (if g.appid in reviews && reviews[g.appid].status == Played then 1 else 0)
      && Rated(q, reviews) ==
           Rated(p, reviews) + (if g.appid in reviews && reviews[g.appid].rating > 0 then [RatedGame(g, reviews[g.appid].rating)] else [])
  {
    assert games[..i + 1][..i] == games[..i];
  }

  /** The `for` loop of `summaryData`: status counts and the rated games, in one pass. */
  method Tally(kept: seq<SteamGame>, reviews: Reviews) returns (beaten: nat, dropped: nat, played: nat, rated: seq<RatedGame>)
    ensures beaten == CountStatus(kept, reviews, Beaten)
    ensures dropped == CountStatus(kept, reviews, Dropped)
    ensures played == CountStatus(kept, reviews, Played)
    ensures rated == Rated(kept, reviews)
  {
    beaten, dropped, played := 0, 0, 0;
    rated := [];
    for i := 0 to |kept|
      invariant beaten == CountStatus(kept[..i], reviews, Beaten)
      invariant dropped == CountStatus(kept[..i], reviews, Dropped)
      invariant played == CountStatus(kept[..i], reviews, Played)
      invariant rated == Rated(kept[..i], reviews)
    {
      var g := kept[i];
      LoopStep(kept, reviews, i);
      if g.appid in reviews {
        var rv := reviews[g.appid];
        if rv.status == Beaten {
          beaten := beaten + 1;
        }
        if rv.status == Dropped {
          dropped := dropped + 1;
        }
        if rv.status == Played {
          played := played + 1;
        }
        if rv.rating > 0 {
          rated := rated + [RatedGame(g, rv.rating)];
        }
      }
    }
    assert kept[..|kept|] == kept;
  }

  /** The `summaryData` computation: filter, tally, sort in place and slice. */
  method ComputeSummary(games: Option<seq<SteamGame>>, user: Option<User>, reviews: Reviews) returns (r: Option<YearSummary>)
    ensures r == SummaryOf(games, user, reviews)
  {
    if games.None? || user.None? {
      return None;
    }
    var kept := Kept(games.value, reviews);
    var beaten, dropped, played, rated := Tally(kept, reviews);
    rated := Sorting.SortBy(rated, NegRating);
    var top := rated[..Min(3, |rated|)];
    r := Some(YearSummary(ShowUser(user.value), |kept|, TotalPlaytime(kept), beaten, dropped, played, top));
  }

  /** The status counts cover reviewed games only, so they never add up to more than the games counted. */
  lemma CountsWithinTotal(games: seq<SteamGame>, user: User, reviews: Reviews)
    ensures var s := SummaryOf(Some(games), Some(user), reviews).value;
      s.beatenCount + s.droppedCount + s.playedCount <= s.totalGames
  {
    StatusCountsAddUp(Kept(games, reviews), reviews);
  }

  /** At most three top games, each rated above 0, not excluded, and in descending rating order. */
  lemma TopGamesShape(games: seq<SteamGame>, user: User, reviews: Reviews)
    ensures var top := SummaryOf(Some(games), Some(user), reviews).value.topGames;
      && |top| <= 3
      && (forall i, j :: 0 <= i < j < |top| ==> top[i].rating >= top[j].rating)
      && (forall e :: e in top ==> e.rating > 0 && e.game in games && !Excluded(reviews, e.game.appid))
  {
    var rated := Rated(Kept(games, reviews), reviews);
    var sorted := Sorting.SortBy(rated, NegRating);
    var top := sorted[..Min(3, |sorted|)];
    forall e | e in top
      ensures e.rating > 0 && e.game in games && !Excluded(reviews, e.game.appid)
    {
      Sorting.SortByMembers(rated, NegRating, e);
    }
  }

  /** No rated game left out of the top three is rated above any game in it. */
  lemma TopGamesAreBest(rated: seq<RatedGame>)
    ensures multiset(Top(rated)) <= multiset(rated)
    ensures forall e, t :: e in multiset(rated) - multiset(Top(rated)) && t in Top(rated) ==> t.rating >= e.rating
  {
    var sorted := Sorting.SortBy(rated, NegRating);
    Sorting.SortedPrefixIsLeast(sorted, NegRating, Min(3, |sorted|));
  }

  /** A kept game rated above 0 is one of the top three, or rated no higher than each of them. */
  lemma EveryRatedGameCompetes(games: seq<SteamGame>, user: User, reviews: Reviews, g: SteamGame)
    requires g in games && !Excluded(reviews, g.appid) && g.appid in reviews && reviews[g.appid].rating > 0
    ensures var top := SummaryOf(Some(games), Some(user), reviews).value.topGames;
      var e := RatedGame(g, reviews[g.appid].rating);
      e in top || forall t :: t in top ==> t.rating >= e.rating
  {
    var kept := Kept(games, reviews);
    assert g in kept;
    var rated := Rated(kept, reviews);
    RatedEntryCompetes(rated, RatedGame(g, reviews[g.appid].rating));
  }

  /** An entry of the rated list is in the top three, or rated no higher than each of them. */
  lemma RatedEntryCompetes(rated: seq<RatedGame>, e: RatedGame)
    requires e in rated
    ensures e in Top(rated) || forall t :: t in Top(rated) ==> t.rating >= e.rating
  {
    TopGamesAreBest(rated);
    if e !in Top(rated) {
      assert e in multiset(rated) - multiset(Top(rated));
    }
  }

  /** Every statistic is the same whether or not the excluded games are in the input. */
  lemma ExcludedGamesIgnored(games: seq<SteamGame>, user: User, reviews: Reviews)
    ensures SummaryOf(Some(Kept(games, reviews)), Some(user), reviews) == SummaryOf(Some(games), Some(user), reviews)
  {
    KeptIdempotent(games, reviews);
  }
}
