/**
 * `GET /api/games`: the signed-in user's owned games that were played in the
 * last 365 days, each with its English name next to its Chinese one, sorted
 * by playtime (longest first), with their count and total playtime.
 */
module GamesRoute {
  import opened Wrappers
  import opened Steam
  import Sorting

  /** Seconds in 365 days. */
  const OneYearSeconds: int := 365 * 24 * 60 * 60

  /** The session as the route sees it: `session.user?.steamId`, missing when there is no user. */
  datatype Session = Session(steamId: Option<string>)

  datatype Response =
    | Unauthorized
    | ServerError
    | Games(games: seq<SteamGame>, count: nat, totalPlaytime: int)

  /** The session or its Steam id is missing or empty: the request is refused before any fetch. */
  predicate SignedOut(session: Option<Session>) {
    session.None? || session.value.steamId.None? || session.value.steamId.value == ""
  }

  /** `new Map(gamesEN.map(g => [g.appid, g.name]))`: one entry per app id of the English list. */
  function EnNames(en: seq<SteamGame>): (m: map<int, string>)
    ensures m.Keys == set g | g in en :: g.appid
  {
    if en == [] then map[]
    else
      var last := en[|en| - 1];
      assert forall g :: g in en <==> g == last || g in en[..|en| - 1];
      EnNames(en[..|en| - 1])[last.appid := last.name]
  }

  /** A later entry for the same id replaces an earlier one: the name kept is that of the last game with the id. */
  lemma {:induction false} EnNamesLastWins(en: seq<SteamGame>, i: int)
    requires 0 <= i < |en| && forall j :: i < j < |en| ==> en[j].appid != en[i].appid
    ensures en[i].appid in EnNames(en) && EnNames(en)[en[i].appid] == en[i].name
    decreases |en|
  {
    if i < |en| - 1 {
      EnNamesLastWins(en[..|en| - 1], i);
    }
  }

  /** `{ ...g, name_en: enNameMap.get(g.appid) || g.name }`: an empty or missing English name falls back to the Chinese one. */
  function WithEnglishName(g: SteamGame, names: map<int, string>): (r: SteamGame)
    ensures r.nameEn.Some?
    ensures r.(nameEn := g.nameEn) == g
    ensures g.appid in names && names[g.appid] != "" ==> r.nameEn.value == names[g.appid]
    ensures !(g.appid in names && names[g.appid] != "") ==> r.nameEn.value == g.name
  {
    g.(nameEn := Some(if g.appid in names && names[g.appid] != "" then names[g.appid] else g.name))
  }

  /** `Math.floor(Date.now() / 1000) - 365 days`; Dafny's `/` by a positive number is the floor. */
  function Cutoff(nowMs: int): int {
    nowMs / 1000 - OneYearSeconds
  }

  /** Merge every Chinese-list game, then keep those last played strictly after the cutoff, in list order. */
  function Played(cn: seq<SteamGame>, names: map<int, string>, cutoff: int): (r: seq<SteamGame>)
    ensures |r| <= |cn|
    ensures forall g :: g in r <==> exists c :: c in cn && c.rtimeLastPlayed > cutoff && g == WithEnglishName(c, names)
  {
    if cn == [] then []
    else
      var c := cn[0];
      var rest := Played(cn[1..], names, cutoff);
      assert forall x :: x in cn <==> x == c || x in cn[1..];
      (if c.rtimeLastPlayed > cutoff then [WithEnglishName(c, names)] else []) + rest
  }

  /** One step of the filter, on a list that is not empty. */
  lemma PlayedFirst(cn: seq<SteamGame>, names: map<int, string>, cutoff: int)
    requires cn != []
    ensures Played(cn, names, cutoff)
      == (if cn[0].rtimeLastPlayed > cutoff then [WithEnglishName(cn[0], names)] else []) + Played(cn[1..], names, cutoff)
  {
  }

  /** A single game is kept, renamed, exactly when it was last played after the cutoff. */
  lemma PlayedOne(c: SteamGame, names: map<int, string>, cutoff: int)
    ensures Played([c], names, cutoff) == if c.rtimeLastPlayed > cutoff then [WithEnglishName(c, names)] else []
  {
    assert [c][1..] == [];
  }

  /** The filter keeps order and repetitions: it distributes over concatenation and keeps or drops each element on its own. */
  lemma {:induction false} PlayedAppend(a: seq<SteamGame>, b: seq<SteamGame>, names: map<int, string>, cutoff: int)
    ensures Played(a + b, names, cutoff) == Played(a, names, cutoff) + Played(b, names, cutoff)
  {
    if a == [] {
      assert a + b == b;
    } else {
      var h := if a[0].rtimeLastPlayed > cutoff then [WithEnglishName(a[0], names)] else [];
      assert (a + b)[0] == a[0] && (a + b)[1..] == a[1..] + b;
      PlayedAppend(a[1..], b, names, cutoff);
      PlayedFirst(a + b, names, cutoff);
      PlayedFirst(a, names, cutoff);
      var x, y := Played(a[1..], names, cutoff), Played(b, names, cutoff);
      calc {
        Played(a + b, names, cutoff);
        h + Played(a[1..] + b, names, cutoff);
        h + (x + y);
        (h + x) + y;
        Played(a, names, cutoff) + y;
      }
    }
  }

  /** The response for given fetch results (`None` for a fetch that threw) and clock reading. */
  function Respond(session: Option<Session>, cn: Option<seq<SteamGame>>, en: Option<seq<SteamGame>>, nowMs: int): (r: Response)
    ensures r.Unauthorized? <==> SignedOut(session)
    ensures r.ServerError? <==> !SignedOut(session) && (cn.None? || en.None?)
  {
    if SignedOut(session) then Unauthorized
    else if cn.None? || en.None? then ServerError
    else
      var played := Sorting.SortBy(Played(cn.value, EnNames(en.value), Cutoff(nowMs)), NegPlaytime);
      Games(played, |played|, TotalPlaytime(played))
  }

  /** The handler: filter into a fresh array, sort it in place, then count and sum it. */
  method Get(session: Option<Session>, cn: Option<seq<SteamGame>>, en: Option<seq<SteamGame>>, nowMs: int) returns (r: Response)
    ensures r == Respond(session, cn, en, nowMs)
  {
    if SignedOut(session) {
      return Unauthorized;
    }
    if cn.None? || en.None? {
      return ServerError;
    }
    var names := EnNames(en.value);
    var played := Played(cn.value, names, Cutoff(nowMs));
    var a := new SteamGame[|played|](i requires 0 <= i < |played| => played[i]);
    assert a[..] == played;
    Sorting.SortInPlace(a, NegPlaytime);
    r := Games(a[..], a.Length, TotalPlaytime(a[..]));
  }

  /**
   * A successful response lists exactly the merged games last played after
   * the cutoff, longest playtime first; its count is their number and its
   * total is the sum of their playtimes, whatever their order.
   */
  lemma GamesResponse(session: Option<Session>, cn: seq<SteamGame>, en: seq<SteamGame>, nowMs: int)
    requires !SignedOut(session)
    ensures var r := Respond(session, Some(cn), Some(en), nowMs);
      var played := Played(cn, EnNames(en), Cutoff(nowMs));
      && r.Games?
      && multiset(r.games) == multiset(played)
      && (forall i, j :: 0 <= i < j < |r.games| ==> r.games[i].playtimeForever >= r.games[j].playtimeForever)
      && r.count == |played|
      && r.totalPlaytime == TotalPlaytime(played)
  {
    var played := Played(cn, EnNames(en), Cutoff(nowMs));
    TotalPlaytimeOfPermutation(Sorting.SortBy(played, NegPlaytime), played);
  }

  /** Every listed game is one of the user's games last played after the cutoff, with an English name set. */
  lemma ListedGamesArePlayedGames(session: Option<Session>, cn: seq<SteamGame>, en: seq<SteamGame>, nowMs: int, g: SteamGame)
    requires !SignedOut(session)
    ensures var r := Respond(session, Some(cn), Some(en), nowMs);
      g in r.games <==> exists c :: c in cn && c.rtimeLastPlayed > Cutoff(nowMs) && g == WithEnglishName(c, EnNames(en))
  {
    Sorting.SortByMembers(Played(cn, EnNames(en), Cutoff(nowMs)), NegPlaytime, g);
  }

  /** A game last played exactly 365 days before the current second is left out; one second later it is kept. */
  lemma CutoffIsStrict(nowMs: int, g: SteamGame, names: map<int, string>)
    ensures g.rtimeLastPlayed == nowMs / 1000 - OneYearSeconds ==> Played([g], names, Cutoff(nowMs)) == []
    ensures g.rtimeLastPlayed == nowMs / 1000 - OneYearSeconds + 1 ==> Played([g], names, Cutoff(nowMs)) == [WithEnglishName(g, names)]
  {
  }

  /** For an id listed twice in the English list, the later name wins. */
  lemma LaterEnglishNameWins(a: SteamGame, b: SteamGame)
    requires a.appid == b.appid
    ensures EnNames([a, b])[a.appid] == b.name
  {
    EnNamesLastWins([a, b], 1);
  }
}
