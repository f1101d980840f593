/**
 * The persisted store of recommendation lists. Each action replaces `lists`
 * by a new value built with `map`/`filter`/spread; those new values are the
 * functions below, and the `Store` class holds the field the actions assign.
 * Fresh ids (`uuidv4()`) and the clock (`Date.now()`) are parameters.
 */
module ShareStore {
  import opened Wrappers
  import Filtering

  /** What a list recommends: Steam games or manga. */
  datatype Kind = Game | Manga

  /** A tag score in tenths of a point: the 0-10 slider moves in steps of 0.1, so 5 is 50. */
  type Score = int

  /** Attribute tags of a manga item: name to score. */
  type Tags = map<string, Score>

  /**
   * One recommended item. The store's declared type lacks `ratingCharacter`,
   * `tags` and `playtime` although the codec and the card use them; this is
   * the superset. `playtime` is in minutes.
   */
  datatype ShareGame = ShareGame(
    id: int,
    name: string,
    coverUrl: string,
    rating: int,
    ratingGameplay: Option<int>,
    ratingVisuals: Option<int>,
    ratingStory: Option<int>,
    ratingSubjective: Option<int>,
    ratingCharacter: Option<int>,
    skippedRatings: Option<seq<string>>,
    reason: Option<string>,
    tags: Option<Tags>,
    playtime: Option<int>)

  /** A recommendation list; `kind` is the source's optional `type` (undefined on created lists). */
  datatype ShareList = ShareList(
    id: string,
    title: string,
    kind: Option<Kind>,
    createdAt: int,
    games: seq<ShareGame>)

  /**
   * The argument of `updateGame`: `Partial<ShareGame> & { id }`. A required
   * field is `None` when the key is absent; an optional field is `None` when
   * absent and `Some(None)` when present with the value `undefined`, which the
   * spread copies too.
   */
  datatype GamePatch = GamePatch(
    id: int,
    name: Option<string>,
    coverUrl: Option<string>,
    rating: Option<int>,
    ratingGameplay: Option<Option<int>>,
    ratingVisuals: Option<Option<int>>,
    ratingStory: Option<Option<int>>,
    ratingSubjective: Option<Option<int>>,
    ratingCharacter: Option<Option<int>>,
    skippedRatings: Option<Option<seq<string>>>,
    reason: Option<Option<string>>,
    tags: Option<Option<Tags>>,
    playtime: Option<Option<int>>)

  /** A patch that names only the game. */
  function EmptyPatch(id: int): GamePatch {
    GamePatch(id, None, None, None, None, None, None, None, None, None, None, None, None)
  }

  /** `{ ...g, ...patch }`: every key present in the patch wins. */
  function Patched(g: ShareGame, p: GamePatch): ShareGame {
    ShareGame(
      p.id,
      p.name.GetOr(g.name),
      p.coverUrl.GetOr(g.coverUrl),
      p.rating.GetOr(g.rating),
      p.ratingGameplay.GetOr(g.ratingGameplay),
      p.ratingVisuals.GetOr(g.ratingVisuals),
      p.ratingStory.GetOr(g.ratingStory),
      p.ratingSubjective.GetOr(g.ratingSubjective),
      p.ratingCharacter.GetOr(g.ratingCharacter),
      p.skippedRatings.GetOr(g.skippedRatings),
      p.reason.GetOr(g.reason),
      p.tags.GetOr(g.tags),
      p.playtime.GetOr(g.playtime))
  }

  /** Merging a patch twice is merging it once, and a patch naming only the game changes nothing. */
  lemma PatchedIdempotent(g: ShareGame, p: GamePatch)
    ensures Patched(Patched(g, p), p) == Patched(g, p)
    ensures Patched(g, EmptyPatch(g.id)) == g
  {
  }

  /** `lists.filter(l => l.id !== id)`. */
  function WithoutList(lists: seq<ShareList>, id: string): (r: seq<ShareList>)
    ensures forall l :: l in r <==> l in lists && l.id != id
    ensures |r| <= |lists|
    ensures (forall l :: l in lists ==> l.id != id) ==> r == lists
  {
    if lists == [] then []
    else (if lists[0].id == id then [] else [lists[0]]) + WithoutList(lists[1..], id)
  }

  /** Deleting keeps the remaining lists in their order: it distributes over concatenation. */
  lemma {:induction false} WithoutListAppend(a: seq<ShareList>, b: seq<ShareList>, id: string)
    ensures WithoutList(a + b, id) == WithoutList(a, id) + WithoutList(b, id)
  {
    if a != [] {
      var h := if a[0].id == id then [] else [a[0]];
      assert (a + b)[0] == a[0] && (a + b)[1..] == a[1..] + b;
      assert WithoutList(a + b, id) == h + WithoutList(a[1..] + b, id);
      assert WithoutList(a, id) == h + WithoutList(a[1..], id);
      WithoutListAppend(a[1..], b, id);
    } else {
      assert a + b == b;
    }
  }

  /** `lists.map(l => l.id === id ? { ...l, title } : l)`. */
  function Retitled(lists: seq<ShareList>, id: string, title: string): (r: seq<ShareList>)
    ensures |r| == |lists|
    ensures forall i :: 0 <= i < |r| ==>
      && r[i].id == lists[i].id && r[i].kind == lists[i].kind
      && r[i].createdAt == lists[i].createdAt && r[i].games == lists[i].games
    ensures forall i :: 0 <= i < |r| ==>
      r[i].title == if lists[i].id == id then title else lists[i].title
    ensures (forall l :: l in lists ==> l.id != id) ==> r == lists
  {
    seq(|lists|, i requires 0 <= i < |lists| =>
      if lists[i].id == id then lists[i].(title := title) else lists[i])
  }

  /** `lists.map(l => l.id === listId ? { ...l, games: [...l.games, game] } : l)`. */
  function WithGameAdded(lists: seq<ShareList>, listId: string, game: ShareGame): (r: seq<ShareList>)
    ensures |r| == |lists|
    ensures forall i :: 0 <= i < |r| ==>
      && r[i].id == lists[i].id && r[i].title == lists[i].title
      && r[i].kind == lists[i].kind && r[i].createdAt == lists[i].createdAt
    ensures forall i :: 0 <= i < |r| ==>
      r[i].games == if lists[i].id == listId then lists[i].games + [game] else lists[i].games
    ensures (forall l :: l in lists ==> l.id != listId) ==> r == lists
  {
    seq(|lists|, i requires 0 <= i < |lists| =>
      if lists[i].id == listId then lists[i].(games := lists[i].games + [game]) else lists[i])
  }

  /** `games.filter(g => g.id !== gameId)`. */
  function GamesWithout(games: seq<ShareGame>, gameId: int): (r: seq<ShareGame>)
    ensures forall g :: g in r <==> g in games && g.id != gameId
    ensures |r| <= |games|
    ensures (forall g :: g in games ==> g.id != gameId) ==> r == games
  {
    if games == [] then []
    else (if games[0].id == gameId then [] else [games[0]]) + GamesWithout(games[1..], gameId)
  }

  /** A single element is kept or dropped on its own. */
  lemma GamesWithoutOne(g: ShareGame, gameId: int)
    ensures GamesWithout([g], gameId) == if g.id == gameId then [] else [g]
  {
    assert [g][1..] == [];
  }

  /** The test `GamesWithout` applies: a game with another id. */
  function OtherId(gameId: int): ShareGame -> bool {
    (g: ShareGame) => g.id != gameId
  }

  /** `GamesWithout` is `Array.prototype.filter` with that test. */
  lemma {:induction false} GamesWithoutIsFilter(s: seq<ShareGame>, gameId: int)
    ensures GamesWithout(s, gameId) == Filtering.Filter(s, OtherId(gameId))
  {
    if s != [] {
      GamesWithoutIsFilter(s[1..], gameId);
    }
  }

  /** The filter keeps order and repetitions: it distributes over concatenation. */
  lemma GamesWithoutAppend(a: seq<ShareGame>, b: seq<ShareGame>, gameId: int)
    ensures GamesWithout(a + b, gameId) == GamesWithout(a, gameId) + GamesWithout(b, gameId)
  {
    GamesWithoutIsFilter(a + b, gameId);
    GamesWithoutIsFilter(a, gameId);
    GamesWithoutIsFilter(b, gameId);
    Filtering.FilterAppend(a, b, OtherId(gameId));
  }

  /** `removeGame`'s new value: drop the game from the matching lists only. */
  function WithGameRemoved(lists: seq<ShareList>, listId: string, gameId: int): (r: seq<ShareList>)
    ensures |r| == |lists|
    ensures forall i :: 0 <= i < |r| ==>
      && r[i].id == lists[i].id && r[i].title == lists[i].title
      && r[i].kind == lists[i].kind && r[i].createdAt == lists[i].createdAt
    ensures forall i :: 0 <= i < |r| ==>
      r[i].games == if lists[i].id == listId then GamesWithout(lists[i].games, gameId) else lists[i].games
    ensures (forall l :: l in lists ==> l.id != listId) ==> r == lists
  {
    seq(|lists|, i requires 0 <= i < |lists| =>
      if lists[i].id == listId then lists[i].(games := GamesWithout(lists[i].games, gameId)) else lists[i])
  }

  /** `games.map(g => g.id === patch.id ? { ...g, ...patch } : g)`. */
  function PatchGames(games: seq<ShareGame>, p: GamePatch): (r: seq<ShareGame>)
    ensures |r| == |games|
    ensures forall j :: 0 <= j < |r| ==> r[j].id == games[j].id
    ensures forall j :: 0 <= j < |r| ==> games[j].id != p.id ==> r[j] == games[j]
    ensures forall j :: 0 <= j < |r| ==> games[j].id == p.id ==> r[j] == Patched(games[j], p)
    ensures (forall g :: g in games ==> g.id != p.id) ==> r == games
  {
    seq(|games|, j requires 0 <= j < |games| =>
      if games[j].id == p.id then Patched(games[j], p) else games[j])
  }

  /** `updateGame`'s new value: merge the patch into matching games of matching lists. */
  function WithGamePatched(lists: seq<ShareList>, listId: string, p: GamePatch): (r: seq<ShareList>)
    ensures |r| == |lists|
    ensures forall i :: 0 <= i < |r| ==>
      && r[i].id == lists[i].id && r[i].title == lists[i].title
      && r[i].kind == lists[i].kind && r[i].createdAt == lists[i].createdAt
    ensures forall i :: 0 <= i < |r| ==>
      r[i].games == if lists[i].id == listId then PatchGames(lists[i].games, p) else lists[i].games
    ensures (forall l :: l in lists ==> l.id != listId) ==> r == lists
  {
    seq(|lists|, i requires 0 <= i < |lists| =>
      if lists[i].id == listId then lists[i].(games := PatchGames(lists[i].games, p)) else lists[i])
  }

  /** A field the patch leaves out keeps its value; a field it names takes the patch's value. */
  lemma PatchTouchesOnlyItsFields(games: seq<ShareGame>, p: GamePatch, j: int)
    requires 0 <= j < |games| && games[j].id == p.id
    ensures var g, g' := games[j], PatchGames(games, p)[j];
      && g'.name == p.name.GetOr(g.name)
      && g'.rating == p.rating.GetOr(g.rating)
      && g'.reason == p.reason.GetOr(g.reason)
      && g'.playtime == p.playtime.GetOr(g.playtime)
      && g'.skippedRatings == p.skippedRatings.GetOr(g.skippedRatings)
      && (p == EmptyPatch(g.id) ==> g' == g)
  {
  }

  /** The store of lists: the `lists` field that every action assigns. */
  class Store {
    var lists: seq<ShareList>

    constructor ()
      ensures lists == []
    {
      lists := [];
    }

    /** Append a copy of an imported list under a fresh id and the current time. */
    method ImportList(imported: ShareList, freshId: string, now: int)
      modifies this
      ensures lists == old(lists) + [imported.(id := freshId, createdAt := now)]
      ensures lists[|lists| - 1].title == imported.title && lists[|lists| - 1].games == imported.games
    {
      lists := lists + [imported.(id := freshId, createdAt := now)];
    }

    /** Append one new, empty list; it carries no `type`. */
    method CreateList(title: string, freshId: string, now: int)
      modifies this
      ensures lists == old(lists) + [ShareList(freshId, title, None, now, [])]
    {
      lists := lists + [ShareList(freshId, title, None, now, [])];
    }

    method DeleteList(id: string)
      modifies this
      ensures lists == WithoutList(old(lists), id)
    {
      lists := WithoutList(lists, id);
    }

    method UpdateListTitle(id: string, title: string)
      modifies this
      ensures lists == Retitled(old(lists), id, title)
    {
      lists := Retitled(lists, id, title);
    }

    /** Append a game to the matching lists; there is no duplicate-id check. */
    method AddGame(listId: string, game: ShareGame)
      modifies this
      ensures lists == WithGameAdded(old(lists), listId, game)
    {
      lists := WithGameAdded(lists, listId, game);
    }

    method RemoveGame(listId: string, gameId: int)
      modifies this
      ensures lists == WithGameRemoved(old(lists), listId, gameId)
    {
      lists := WithGameRemoved(lists, listId, gameId);
    }

    method UpdateGame(listId: string, p: GamePatch)
      modifies this
      ensures lists == WithGamePatched(old(lists), listId, p)
    {
      lists := WithGamePatched(lists, listId, p);
    }
  }
}
