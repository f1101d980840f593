/** The owned-game record of the Steam Web API and the CDN artwork convention for it. */
module Steam {
  import Js
  import opened Wrappers

  /** One entry of `GetOwnedGames` (playtimes in minutes, `rtime_last_played` in Unix seconds). */
  datatype SteamGame = SteamGame(
    appid: int,
    name: string,
    playtimeForever: int,
    imgIconUrl: string,
    rtimeLastPlayed: int,
    nameEn: Option<string>)

  const CdnAppsPrefix: string := "https://cdn.cloudflare.steamstatic.com/steam/apps/"
  const HeaderSuffix: string := "/header.jpg"

  /** The header image of an app on the Steam CDN, built from its id alone. */
  function HeaderImageUrl(appid: int): string {
    CdnAppsPrefix + Js.IntToString(appid) + HeaderSuffix
  }

  /** Different app ids give different header URLs, so the id can be read back from the URL. */
  lemma HeaderImageUrlInjective(a: int, b: int)
    requires HeaderImageUrl(a) == HeaderImageUrl(b)
    ensures a == b
  {
    var ua, ub := HeaderImageUrl(a), HeaderImageUrl(b);
    var n := |CdnAppsPrefix|;
    assert |ua| == |ub|;
    assert ua[n..|ua| - |HeaderSuffix|] == Js.IntToString(a);
    assert ub[n..|ub| - |HeaderSuffix|] == Js.IntToString(b);
    Js.IntToStringInjective(a, b);
  }

  function PlaytimeOf(g: SteamGame): int {
    g.playtimeForever
  }

  /** `(a, b) => b.playtime_forever - a.playtime_forever` is ascending order of the negated playtime. */
  function NegPlaytime(g: SteamGame): int {
    -g.playtimeForever
  }

  /** `reduce((acc, g) => acc + g.playtime_forever, 0)`. */
  function TotalPlaytime(games: seq<SteamGame>): int {
    if games == [] then 0 else TotalPlaytime(games[..|games| - 1]) + games[|games| - 1].playtimeForever
  }

  /** Taking one game out of a list takes its playtime out of the total. */
  lemma {:induction false} TotalWithout(b: seq<SteamGame>, j: int)
    requires 0 <= j < |b|
    ensures TotalPlaytime(b) == TotalPlaytime(b[..j] + b[j + 1..]) + b[j].playtimeForever
    decreases |b|
  {
    var n := |b|;
    if j == n - 1 {
      assert b[..j] + b[j + 1..] == b[..n - 1];
    } else {
      var b' := b[..n - 1];
      TotalWithout(b', j);
      var r, r' := b[..j] + b[j + 1..], b'[..j] + b'[j + 1..];
      assert r[..|r| - 1] == r' && r[|r| - 1] == b[n - 1];
    }
  }

  lemma RemoveAt<T>(b: seq<T>, j: int)
    requires 0 <= j < |b|
    ensures multiset(b[..j] + b[j + 1..]) == multiset(b) - multiset{b[j]}
  {
    assert b == b[..j] + [b[j]] + b[j + 1..];
  }

  /** The last game of `a` sits at some `j` in a permutation `b`; without them the two are still permutations. */
  lemma MatchLast(a: seq<SteamGame>, b: seq<SteamGame>) returns (j: int)
    requires multiset(a) == multiset(b) && a != []
    ensures 0 <= j < |b| && b[j] == a[|a| - 1]
    ensures multiset(a[..|a| - 1]) == multiset(b[..j] + b[j + 1..])
  {
    var n := |a|;
    var x := a[n - 1];
    assert x in multiset(b);
    assert x in b;
    j :| 0 <= j < |b| && b[j] == x;
    RemoveAt(b, j);
    RemoveAt(a, n - 1);
    assert a[..n - 1] + a[n..] == a[..n - 1];
  }

  /** The total playtime does not depend on the order of the games. */
  lemma {:induction false} TotalPlaytimeOfPermutation(a: seq<SteamGame>, b: seq<SteamGame>)
    requires multiset(a) == multiset(b)
    ensures TotalPlaytime(a) == TotalPlaytime(b)
    decreases |a|
  {
    assert |a| == |multiset(a)| == |multiset(b)| == |b|;
    if a != [] {
      var n := |a|;
      var j := MatchLast(a, b);
      TotalPlaytimeOfPermutation(a[..n - 1], b[..j] + b[j + 1..]);
      TotalWithout(b, j);
    }
  }
}
