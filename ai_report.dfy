/**
 * The AI year-report dialog. From the year's games and the reviews it builds
 * the statistics and a two-tier context for the model: tier 1 holds every
 * reviewed game and is topped up with the most-played games until it holds
 * 30 ids; tier 2 lists every other game with its hours. The dialog then walks
 * through idle, fetching the tier-1 details, generating and done.
 */
module AIReport {
  import opened Wrappers
  import opened Steam
  import opened ReviewStore
  import Sorting
  import Js
  import Filtering

  /** Under 300 minutes (5 hours) counts as a short game. */
  const ShortLimit: int := 300
  /** Over 1200 minutes (20 hours) counts as a long game. */
  const LongLimit: int := 1200
  /** Tier 1 is topped up until it holds this many ids. */
  const Tier1Size: nat := 30
  /** At most this many tier-2 games go into the prompt. */
  const Tier2Cap: nat := 50
  /** A tier-2 comment is cut to this many UTF-16 code units. */
  const CommentCap: nat := 50

  datatype Stats = Stats(totalGames: nat, shortGames: nat, longGames: nat, medianPlaytime: int)

  /** `{ id, name, hours }`: one tier-2 game. */
  datatype Tier2Entry = Tier2Entry(id: int, name: string, hours: int)

  /** What the dialog hands to the prompt and to the details queue. */
  datatype Context = Context(stats: Stats, tier1: set<int>, tier2: seq<Tier2Entry>)

  function Min(a: int, b: int): int {
    if a < b then a else b
  }

  function Max(a: int, b: int): int {
    if a < b then b else a
  }

  // ----- Statistics -----

  /** The number of games played for less than five hours. */
  function CountShort(games: seq<SteamGame>): (n: nat)
    ensures n <= |games|
  {
    if games == [] then 0
    else CountShort(games[..|games| - 1]) + (if games[|games| - 1].playtimeForever < ShortLimit then 1 else 0)
  }

  /** The number of games played for more than twenty hours. */
  function CountLong(games: seq<SteamGame>): (n: nat)
    ensures n <= |games|
  {
    if games == [] then 0
    else CountLong(games[..|games| - 1]) + (if games[|games| - 1].playtimeForever > LongLimit then 1 else 0)
  }

  /** The test of the short-games filter. */
  predicate IsShort(g: SteamGame) {
    g.playtimeForever < ShortLimit
  }

  /** The test of the long-games filter. */
  predicate IsLong(g: SteamGame) {
    g.playtimeForever > LongLimit
  }

  /** `games.filter(g => g.playtime_forever < 300).length`. */
  lemma {:induction false} CountShortIsFilter(games: seq<SteamGame>)
    ensures CountShort(games) == |Filtering.Filter(games, IsShort)|
    decreases |games|
  {
    if games != [] {
      var init, last := games[..|games| - 1], games[|games| - 1];
      CountShortIsFilter(init);
      assert games == init + [last];
      Filtering.FilterAppend(init, [last], IsShort);
      assert [last][1..] == [];
    }
  }

  /** `games.filter(g => g.playtime_forever > 1200).length`. */
  lemma {:induction false} CountLongIsFilter(games: seq<SteamGame>)
    ensures CountLong(games) == |Filtering.Filter(games, IsLong)|
    decreases |games|
  {
    if games != [] {
      var init, last := games[..|games| - 1], games[|games| - 1];
      CountLongIsFilter(init);
      assert games == init + [last];
      Filtering.FilterAppend(init, [last], IsLong);
      assert [last][1..] == [];
    }
  }

  /** The playtime at index `n / 2` of the ascending order, or 0 for no games. */
  function MedianOf(games: seq<SteamGame>): int {
    if games == [] then 0 else Sorting.SortBy(games, PlaytimeOf)[|games| / 2].playtimeForever
  }

  /** The statistics of a list of games, the median rounded to whole hours. */
  function StatsOf(games: seq<SteamGame>): Stats {
    Stats(|games|, CountShort(games), CountLong(games), Js.RoundDiv(MedianOf(games), 60))
  }

  /** No game is both short and long, so the two counts never exceed the total. */
  lemma {:induction false} ShortAndLongApart(games: seq<SteamGame>)
    ensures CountShort(games) + CountLong(games) <= |games|
  {
    if games != [] {
      ShortAndLongApart(games[..|games| - 1]);
    }
  }

  /** Exchanging positions `j` and the last, whose keys agree, keeps the multiset and every key. */
  lemma SwapEqualKeys<T>(a: seq<T>, j: int, key: T -> int) returns (a': seq<T>)
    requires 0 <= j < |a| && key(a[j]) == key(a[|a| - 1])
    ensures |a'| == |a| && a'[|a| - 1] == a[j]
    ensures multiset(a') == multiset(a)
    ensures forall i :: 0 <= i < |a| ==> key(a'[i]) == key(a[i])
  {
    a' := a[j := a[|a| - 1]][|a| - 1 := a[j]];
  }

  /**
   * Removing the element at `j` from a sorted sequence whose last key equals
   * its key leaves a sorted sequence with the same keys as the first `|a| - 1`
   * elements of `a`: move the last element into place `j` and drop the last.
   */
  lemma RemoveEqualKey<T>(a: seq<T>, j: int, key: T -> int) returns (a2: seq<T>)
    requires Sorting.SortedBy(a, key) && 0 <= j < |a| && key(a[j]) == key(a[|a| - 1])
    ensures |a2| == |a| - 1
    ensures multiset(a2) == multiset(a) - multiset{a[j]}
    ensures forall i :: 0 <= i < |a2| ==> key(a2[i]) == key(a[i])
    ensures Sorting.SortedBy(a2, key)
  {
    var a' := SwapEqualKeys(a, j, key);
    a2 := a'[..|a| - 1];
    assert a' == a2 + [a[j]];
  }

  lemma SortedPrefix<T>(s: seq<T>, m: int, key: T -> int)
    requires Sorting.SortedBy(s, key) && 0 <= m <= |s|
    ensures Sorting.SortedBy(s[..m], key)
  {
  }

  /** Two sorted sequences with the same elements end in the same key, and the last of `b` sits somewhere in `a`. */
  lemma LastKeysAgree<T>(a: seq<T>, b: seq<T>, key: T -> int) returns (j: int)
    requires Sorting.SortedBy(a, key) && Sorting.SortedBy(b, key) && multiset(a) == multiset(b)
    requires |a| == |b| > 0
    ensures 0 <= j < |a| && a[j] == b[|b| - 1]
    ensures key(a[|a| - 1]) == key(b[|b| - 1])
  {
    var n := |a|;
    var x, y := a[n - 1], b[n - 1];
    assert y in multiset(a) && x in multiset(b);
    assert y in a && x in b;
    j :| 0 <= j < n && a[j] == y;
    var k :| 0 <= k < n && b[k] == x;
  }

  /** Two ascending orders of the same games agree on the key at every index. */
  lemma {:induction false} SortedKeysAgree<T>(a: seq<T>, b: seq<T>, key: T -> int)
    requires Sorting.SortedBy(a, key) && Sorting.SortedBy(b, key) && multiset(a) == multiset(b)
    ensures |a| == |b|
    ensures forall i :: 0 <= i < |a| ==> key(a[i]) == key(b[i])
    decreases |a|, 1
  {
    assert |a| == |multiset(a)| == |multiset(b)| == |b|;
    if |a| > 0 {
      SortedKeysAgreeNonEmpty(a, b, key);
    }
  }

  /** The inductive step: drop the last of `b` from both, and use the shorter pair. */
  lemma {:induction false} SortedKeysAgreeNonEmpty<T>(a: seq<T>, b: seq<T>, key: T -> int)
    requires Sorting.SortedBy(a, key) && Sorting.SortedBy(b, key) && multiset(a) == multiset(b)
    requires |a| == |b| > 0
    ensures forall i :: 0 <= i < |a| ==> key(a[i]) == key(b[i])
    decreases |a|, 0
  {
    var n := |a|;
    var j := LastKeysAgree(a, b, key);
    var a2 := RemoveEqualKey(a, j, key);
    var b2 := b[..n - 1];
    assert b == b2 + [b[n - 1]];
    assert multiset(a2) == multiset(b2);
    SortedPrefix(b, n - 1, key);
    SortedKeysAgree(a2, b2, key);
    forall i | 0 <= i < n
      ensures key(a[i]) == key(b[i])
    {
      if i < n - 1 {
        assert key(a[i]) == key(a2[i]) == key(b2[i]) == key(b[i]);
      }
    }
  }

  /** The median does not depend on the order the games come in: any ascending order gives it. */
  lemma MedianOfAnySortedOrder(games: seq<SteamGame>, t: seq<SteamGame>)
    requires multiset(t) == multiset(games) && Sorting.SortedBy(t, PlaytimeOf) && games != []
    ensures |t| == |games| && MedianOf(games) == t[|games| / 2].playtimeForever
  {
    SortedKeysAgree(t, Sorting.SortBy(games, PlaytimeOf), PlaytimeOf);
  }

  /** The median is the playtime of one of the games, and at least the playtime of the shortest. */
  lemma MedianIsAPlaytime(games: seq<SteamGame>)
    requires games != []
    ensures exists g :: g in games && g.playtimeForever == MedianOf(games)
    ensures Sorting.SortBy(games, PlaytimeOf)[0].playtimeForever <= MedianOf(games)
    ensures forall g :: g in games ==> Sorting.SortBy(games, PlaytimeOf)[0].playtimeForever <= g.playtimeForever
  {
    var s := Sorting.SortBy(games, PlaytimeOf);
    Sorting.SortByMembers(games, PlaytimeOf, s[|games| / 2]);
    forall g | g in games
      ensures s[0].playtimeForever <= g.playtimeForever
    {
      Sorting.SortByMembers(games, PlaytimeOf, g);
      var j :| 0 <= j < |s| && s[j] == g;
    }
  }

  /** `games.length > 0 ? games.sort(asc)[floor(n / 2)] : 0`: the sort happens in place. */
  method ComputeStats(games: array<SteamGame>) returns (stats: Stats)
    modifies games
    ensures stats == StatsOf(old(games[..]))
    ensures games[..] == Sorting.SortBy(old(games[..]), PlaytimeOf)
  {
    var all := games[..];
    var total := games.Length;
    var short := CountShort(all);
    var long := CountLong(all);
    var median := 0;
    if games.Length > 0 {
      Sorting.SortInPlace(games, PlaytimeOf);
      median := games[games.Length / 2].playtimeForever;
    }
    stats := Stats(total, short, long, Js.RoundDiv(median, 60));
  }

  // ----- Tier 1 -----

  function AppIds(s: seq<SteamGame>): set<int> {
    set g | g in s :: g.appid
  }

  /** The `for ... of sortedByTime` loop: add each id until the set holds 30 or more. */
  function Fill(s: seq<SteamGame>, t: set<int>): (r: set<int>)
    ensures t <= r
    decreases |s|
  {
    if s == [] || |t| >= Tier1Size then t else Fill(s[1..], t + {s[0].appid})
  }

  /** How many games of `s` the loop visits before it stops. */
  function FillStop(s: seq<SteamGame>, t: set<int>): (k: nat)
    ensures k <= |s|
    decreases |s|
  {
    if s == [] || |t| >= Tier1Size then 0 else 1 + FillStop(s[1..], t + {s[0].appid})
  }

  /** The ids of the first `k + 1` games: the first game's and those of the next `k`. */
  lemma AppIdsPrefix(s: seq<SteamGame>, k: int)
    requires 0 <= k < |s|
    ensures AppIds(s[..k + 1]) == {s[0].appid} + AppIds(s[1..][..k])
    ensures AppIds(s[..0]) == {}
  {
    assert s[..k + 1] == [s[0]] + s[1..][..k];
    assert forall g :: g in s[..k + 1] <==> g == s[0] || g in s[1..][..k];
  }

  /** The loop adds a prefix of the list. */
  lemma {:induction false} FillTakesAPrefix(s: seq<SteamGame>, t: set<int>)
    ensures Fill(s, t) == t + AppIds(s[..FillStop(s, t)])
    decreases |s|
  {
    if s == [] || |t| >= Tier1Size {
      assert AppIds(s[..0]) == {};
    } else {
      var t' := t + {s[0].appid};
      FillTakesAPrefix(s[1..], t');
      AppIdsPrefix(s, FillStop(s[1..], t'));
    }
  }

  /** The loop stops before the end of the list only once the set holds 30 ids. */
  lemma {:induction false} FillStopsAtCap(s: seq<SteamGame>, t: set<int>)
    ensures FillStop(s, t) < |s| ==> |Fill(s, t)| >= Tier1Size
    decreases |s|
  {
    if s != [] && |t| < Tier1Size {
      FillStopsAtCap(s[1..], t + {s[0].appid});
    }
  }

  /** Every id the loop adds, it adds while the set holds fewer than 30. */
  lemma {:induction false} FillAddsBelowCap(s: seq<SteamGame>, t: set<int>)
    ensures FillStop(s, t) > 0 ==> |t + AppIds(s[..FillStop(s, t) - 1])| < Tier1Size
    decreases |s|
  {
    if s != [] && |t| < Tier1Size {
      var t' := t + {s[0].appid};
      FillAddsBelowCap(s[1..], t');
      var k' := FillStop(s[1..], t');
      if k' > 0 {
        AppIdsPrefix(s, k' - 1);
        assert t + AppIds(s[..k']) == t' + AppIds(s[1..][..k' - 1]);
      } else {
        assert AppIds(s[..0]) == {};
      }
    }
  }

  /** Topping up never takes the set past 30 ids unless the reviews alone already do. */
  lemma {:induction false} FillBound(s: seq<SteamGame>, t: set<int>)
    ensures |Fill(s, t)| <= Max(|t|, Tier1Size)
    decreases |s|
  {
    if s != [] && |t| < Tier1Size {
      var t' := t + {s[0].appid};
      assert |t'| <= |t| + 1 by {
        if s[0].appid in t {
          assert t' == t;
        }
      }
      FillBound(s[1..], t');
    }
  }

  /** `sortedByTime = [...games].sort(desc)` then the topping-up loop. */
  function Tier1(asc: seq<SteamGame>, reviews: Reviews): set<int> {
    Fill(Sorting.SortBy(asc, NegPlaytime), reviews.Keys)
  }

  /** The loop, with its early `break`. */
  method BuildTier1(sortedByTime: seq<SteamGame>, reviewed: set<int>) returns (t1: set<int>)
    ensures t1 == Fill(sortedByTime, reviewed)
  {
    t1 := reviewed;
    var i := 0;
    while i < |sortedByTime|
      invariant 0 <= i <= |sortedByTime|
      invariant Fill(sortedByTime[i..], t1) == Fill(sortedByTime, reviewed)
    {
      if |t1| >= Tier1Size {
        break;
      }
      assert sortedByTime[i..][1..] == sortedByTime[i + 1..];
      t1 := t1 + {sortedByTime[i].appid};
      i := i + 1;
    }
  }

  /**
   * Tier 1 holds every reviewed game and the ids of the `k` most-played
   * games, where the loop stopped at `k`, each added while the set held
   * fewer than 30 ids.
   */
  lemma Tier1Contents(asc: seq<SteamGame>, reviews: Reviews)
    ensures var s := Sorting.SortBy(asc, NegPlaytime);
      var k := FillStop(s, reviews.Keys);
      && Tier1(asc, reviews) == reviews.Keys + AppIds(s[..k])
      && (forall i, j :: 0 <= i < k <= j < |s| ==> s[j].playtimeForever <= s[i].playtimeForever)
      && (k > 0 ==> |reviews.Keys + AppIds(s[..k - 1])| < Tier1Size)
  {
    var s := Sorting.SortBy(asc, NegPlaytime);
    FillTakesAPrefix(s, reviews.Keys);
    FillAddsBelowCap(s, reviews.Keys);
  }

  /** Sorting keeps the set of app ids. */
  lemma AppIdsOfSorted(asc: seq<SteamGame>, key: SteamGame -> int)
    ensures AppIds(Sorting.SortBy(asc, key)) == AppIds(asc)
  {
    forall g | g in asc || g in Sorting.SortBy(asc, key)
      ensures g in asc <==> g in Sorting.SortBy(asc, key)
    {
      Sorting.SortByMembers(asc, key, g);
    }
  }

  /** The loop stops early only at 30 ids, so with fewer than 30 ids every game is in tier 1. */
  lemma Tier1HasEveryGameBelowCap(asc: seq<SteamGame>, reviews: Reviews)
    requires |Tier1(asc, reviews)| < Tier1Size
    ensures AppIds(asc) <= Tier1(asc, reviews)
  {
    var s := Sorting.SortBy(asc, NegPlaytime);
    FillTakesAPrefix(s, reviews.Keys);
    FillStopsAtCap(s, reviews.Keys);
    assert s[..FillStop(s, reviews.Keys)] == s;
    AppIdsOfSorted(asc, NegPlaytime);
  }

  /** Tier 1 holds at most 30 ids unless the reviews alone are more. */
  lemma Tier1Bound(asc: seq<SteamGame>, reviews: Reviews)
    ensures |Tier1(asc, reviews)| <= Max(|reviews|, Tier1Size)
  {
    FillBound(Sorting.SortBy(asc, NegPlaytime), reviews.Keys);
    assert |reviews.Keys| == |reviews|;
  }

  // ----- Tier 2 -----

  /** `games.filter(g => !t1Ids.has(g.appid))`, in the order of `games`. */
  function Rest(games: seq<SteamGame>, t1: set<int>): (r: seq<SteamGame>)
    ensures |r| <= |games|
    ensures forall g :: g in r <==> g in games && g.appid !in t1
  {
    if games == [] then []
    else (if games[0].appid in t1 then [] else [games[0]]) + Rest(games[1..], t1)
  }

  /** A single element is kept or dropped on its own. */
  lemma RestOne(g: SteamGame, t1: set<int>)
    ensures Rest([g], t1) == if g.appid in t1 then [] else [g]
  {
    assert [g][1..] == [];
  }

  /** The test `Rest` applies: a game whose id is not in tier 1. */
  function NotInTier1(t1: set<int>): SteamGame -> bool {
    (g: SteamGame) => g.appid !in t1
  }

  /** `Rest` is `Array.prototype.filter` with that test. */
  lemma {:induction false} RestIsFilter(s: seq<SteamGame>, t1: set<int>)
    ensures Rest(s, t1) == Filtering.Filter(s, NotInTier1(t1))
  {
    if s != [] {
      RestIsFilter(s[1..], t1);
    }
  }

  /** The filter keeps order and repetitions: it distributes over concatenation. */
  lemma RestAppend(a: seq<SteamGame>, b: seq<SteamGame>, t1: set<int>)
    ensures Rest(a + b, t1) == Rest(a, t1) + Rest(b, t1)
  {
    RestIsFilter(a + b, t1);
    RestIsFilter(a, t1);
    RestIsFilter(b, t1);
    Filtering.FilterAppend(a, b, NotInTier1(t1));
  }

  function EntryOf(g: SteamGame): Tier2Entry {
    Tier2Entry(g.appid, g.name, Js.RoundDiv(g.playtimeForever, 60))
  }

  /** `.map(g => ({ id, name, hours: Math.round(playtime / 60) }))`. */
  function Tier2(games: seq<SteamGame>, t1: set<int>): seq<Tier2Entry> {
    var rest := Rest(games, t1);
    seq(|rest|, i requires 0 <= i < |rest| => EntryOf(rest[i]))
  }

  /** Filtering keeps the order it was given. */
  lemma {:induction false} RestKeepsOrder(games: seq<SteamGame>, t1: set<int>, key: SteamGame -> int)
    requires Sorting.SortedBy(games, key)
    ensures Sorting.SortedBy(Rest(games, t1), key)
  {
    if games != [] {
      assert Sorting.SortedBy(games[1..], key);
      RestKeepsOrder(games[1..], t1, key);
      var tail := Rest(games[1..], t1);
      forall h | h in tail
        ensures key(games[0]) <= key(h)
      {
        var j :| 0 <= j < |games[1..]| && games[1..][j] == h;
        assert games[j + 1] == h;
      }
    }
  }

  /** Each game is in exactly one tier: its tier-2 entry is listed if and only if its id is not in tier 1. */
  lemma TiersPartition(games: seq<SteamGame>, t1: set<int>)
    ensures forall e :: e in Tier2(games, t1) ==> e.id !in t1
    ensures forall g :: g in games ==> (EntryOf(g) in Tier2(games, t1) <==> g.appid !in t1)
  {
    var rest := Rest(games, t1);
    var t2 := Tier2(games, t1);
    forall e | e in t2
      ensures e.id !in t1 && exists h :: h in rest && e == EntryOf(h)
    {
      var i :| 0 <= i < |t2| && t2[i] == e;
      assert rest[i] in rest;
    }
    forall g | g in games && g.appid !in t1
      ensures EntryOf(g) in t2
    {
      var i :| 0 <= i < |rest| && rest[i] == g;
      assert t2[i] == EntryOf(g);
    }
  }

  /** The games come to tier 2 after the in-place ascending sort, so the hours only go up along it. */
  lemma Tier2Ascending(asc: seq<SteamGame>, t1: set<int>)
    requires Sorting.SortedBy(asc, PlaytimeOf)
    ensures forall i, j :: 0 <= i < j < |Tier2(asc, t1)| ==> Tier2(asc, t1)[i].hours <= Tier2(asc, t1)[j].hours
  {
    RestKeepsOrder(asc, t1, PlaytimeOf);
    var rest := Rest(asc, t1);
    forall i, j | 0 <= i < j < |rest|
      ensures Js.RoundDiv(rest[i].playtimeForever, 60) <= Js.RoundDiv(rest[j].playtimeForever, 60)
    {
      Js.RoundDivMonotone(rest[i].playtimeForever, rest[j].playtimeForever, 60);
    }
  }

  // ----- The whole context -----

  /** The memoised context: statistics, then tier 1 and tier 2 over the games as the sort left them. */
  function ContextOf(games: seq<SteamGame>, reviews: Reviews): Context {
    var asc := Sorting.SortBy(games, PlaytimeOf);
    var t1 := Tier1(asc, reviews);
    Context(StatsOf(games), t1, Tier2(asc, t1))
  }

  method PrepareContext(games: array<SteamGame>, reviews: Reviews) returns (ctx: Context)
    modifies games
    ensures ctx == ContextOf(old(games[..]), reviews)
    ensures games[..] == Sorting.SortBy(old(games[..]), PlaytimeOf)
  {
    var stats := ComputeStats(games);
    var sortedByTime := Sorting.SortBy(games[..], NegPlaytime);
    var t1 := BuildTier1(sortedByTime, reviews.Keys);
    ctx := Context(stats, t1, Tier2(games[..], t1));
  }

  /** Tier 2 of the context lists its games from the least played to the most played. */
  lemma ContextTier2Ascending(games: seq<SteamGame>, reviews: Reviews)
    ensures var t2 := ContextOf(games, reviews).tier2;
      forall i, j :: 0 <= i < j < |t2| ==> t2[i].hours <= t2[j].hours
  {
    var asc := Sorting.SortBy(games, PlaytimeOf);
    Tier2Ascending(asc, Tier1(asc, reviews));
  }

  // ----- What the prompt takes -----

  /** `.slice(0, 50)`: the first 50 tier-2 games, or all of them when there are fewer. */
  function Tier2Shown(t2: seq<Tier2Entry>): (r: seq<Tier2Entry>)
    ensures |r| <= Tier2Cap
    ensures |r| == Min(|t2|, Tier2Cap) && r <= t2
  {
    t2[..Min(|t2|, Tier2Cap)]
  }

  /** `if (r.comment) r.comment.slice(0, 50)`: an empty comment adds nothing; otherwise its first 50 code units. */
  function CommentExcerpt(comment: string): (u: Option<seq<int>>)
    ensures u.Some? <==> comment != ""
    ensures u.Some? ==> |u.value| <= CommentCap && u.value <= Js.Utf16(comment) && u.value != []
    ensures u.Some? && Js.Length(comment) <= CommentCap ==> u.value == Js.Utf16(comment)
  {
    if comment == "" then None
    else
      var units := Js.Utf16(comment);
      Some(units[..Min(|units|, CommentCap)])
  }

  // ----- The dialog's steps -----

  datatype Step = Idle | Fetching | Generating | Done

  /**
   * What moves the dialog: the start button (with whether the AI settings are
   * usable), a change of the details queue's state, and the model's reply or
   * its failure.
   */
  datatype Event =
    | Start(configured: bool)
    | QueueChanged(isFetching: bool, current: int, total: int)
    | Replied
    | Failed

  /** The queue has fetched everything it was given, and it was given something. */
  predicate FetchComplete(isFetching: bool, current: int, total: int) {
    !isFetching && current == total && total > 0
  }

  /** The step after an event. */
  function Next(step: Step, e: Event): Step {
    match e
    case Start(configured) => if configured then Fetching else step
    case QueueChanged(f, c, t) => if step == Fetching && FetchComplete(f, c, t) then Generating else step
    case Replied => Done
    case Failed => Idle
  }

  /** An unconfigured start leaves the step alone. */
  lemma UnconfiguredStartStays(step: Step)
    ensures Next(step, Start(false)) == step
  {
  }

  /**
   * Generation begins only from fetching, and only once the queue is done;
   * done is reached only by a reply; a failure always goes back to idle.
   */
  lemma StepsInOrder(step: Step, e: Event)
    ensures Next(step, e) == Generating && step != Generating ==>
      step == Fetching && e.QueueChanged? && FetchComplete(e.isFetching, e.current, e.total)
    ensures Next(step, e) == Done && step != Done ==> e == Replied
    ensures Next(step, e) == Fetching && step != Fetching ==> e == Start(true)
    ensures e == Failed ==> Next(step, e) == Idle
  {
  }

  /** The steps a sequence of events leads through. */
  function Run(step: Step, events: seq<Event>): Step
    decreases |events|
  {
    if events == [] then step else Run(Next(step, events[0]), events[1..])
  }

  /** Without a configured start the dialog never leaves idle until something replies or fails. */
  lemma {:induction false} NoStartNoFetch(events: seq<Event>)
    requires forall i :: 0 <= i < |events| ==> (events[i].Start? && !events[i].configured) || events[i].QueueChanged?
    ensures Run(Idle, events) == Idle
    decreases |events|
  {
    if events != [] {
      NoStartNoFetch(events[1..]);
    }
  }

  /**
   * With no games and no reviews the details queue is given nothing and keeps
   * reporting a total of 0, so the dialog never moves on from fetching.
   */
  lemma {:induction false} EmptyQueueKeepsFetching(events: seq<Event>)
    requires forall i :: 0 <= i < |events| ==> events[i].QueueChanged? && events[i].total == 0
    ensures Run(Fetching, events) == Fetching
    decreases |events|
  {
    if events != [] {
      EmptyQueueKeepsFetching(events[1..]);
    }
  }

  /** The dialog's state: the step and whether the settings dialog is open. */
  class Dialog {
    var step: Step
    var settingsOpen: bool

    constructor ()
      ensures step == Idle && !settingsOpen
    {
      step := Idle;
      settingsOpen := false;
    }

    /** `startProcess`: without a usable configuration, open the settings and stay. */
    method StartProcess(configured: bool)
      modifies this
      ensures step == Next(old(step), Start(configured))
      ensures settingsOpen == (old(settingsOpen) || !configured)
    {
      if !configured {
        settingsOpen := true;
        return;
      }
      step := Fetching;
    }

    /** The auto-advance effect; `generateReport` moves to generating before it awaits the model. */
    method QueueChanged(isFetching: bool, current: int, total: int)
      modifies this
      ensures step == Next(old(step), Event.QueueChanged(isFetching, current, total))
      ensures settingsOpen == old(settingsOpen)
    {
      if step == Fetching && !isFetching && current == total && total > 0 {
        step := Generating;
      }
    }

    /** The end of `generateReport`: done on a reply, idle on a failure. */
    method ReportFinished(success: bool)
      modifies this
      ensures step == Next(old(step), if success then Replied else Failed)
      ensures settingsOpen == old(settingsOpen)
    {
      if success {
        step := Done;
      } else {
        step := Idle;
      }
    }
  }
}
