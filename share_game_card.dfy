/**
 * The editable card of one item in a recommendation list: sub-rating
 * sliders whose mean becomes the overall rating, skippable dimensions, the
 * reason text, the playtime field and the tag editor's confirmation. Each
 * handler writes a patch to the list store through `updateGame` or
 * `removeGame`.
 */
module ShareGameCard {
  import opened Wrappers
  import Js
  import Steam
  import opened ShareStore
  import Filtering

  /** The five rating dimensions. */
  datatype Dim = Gameplay | Visuals | Story | Subjective | Character

  /** The dimension's key, as stored in `skippedRatings`. */
  function KeyOf(d: Dim): (k: string)
    ensures k in ["ratingGameplay", "ratingVisuals", "ratingStory", "ratingSubjective", "ratingCharacter"]
  {
    match d
    case Gameplay => "ratingGameplay"
    case Visuals => "ratingVisuals"
    case Story => "ratingStory"
    case Subjective => "ratingSubjective"
    case Character => "ratingCharacter"
  }

  lemma KeyOfInjective(a: Dim, b: Dim)
    ensures KeyOf(a) == KeyOf(b) <==> a == b
  {
  }

  /** The card's `listType` prop; it defaults to game. */
  datatype ListType = GameList | MangaList

  /** The sliders a list type shows, in display order. */
  function RatingConfig(t: ListType): (r: seq<Dim>)
    ensures |r| == 4 && r[3] == Subjective
    ensures forall i, j :: 0 <= i < j < |r| ==> r[i] != r[j]
    ensures Visuals in r && Story in r
    ensures Gameplay in r <==> t == GameList
    ensures Character in r <==> t == MangaList
  {
    match t
    case MangaList => [Visuals, Story, Character, Subjective]
    case GameList => [Gameplay, Visuals, Story, Subjective]
  }

  /** The `localRatings` state: one slider value per dimension. */
  datatype LocalRatings = LocalRatings(gameplay: int, visuals: int, story: int, subjective: int, character: int) {
    function Get(d: Dim): int {
      match d
      case Gameplay => gameplay
      case Visuals => visuals
      case Story => story
      case Subjective => subjective
      case Character => character
    }

    /** `{ ...prev, [key]: v }`. */
    function With(d: Dim, v: int): (r: LocalRatings)
      ensures r.Get(d) == v
      ensures forall e :: e != d ==> r.Get(e) == Get(e)
    {
      match d
      case Gameplay => this.(gameplay := v)
      case Visuals => this.(visuals := v)
      case Story => this.(story := v)
      case Subjective => this.(subjective := v)
      case Character => this.(character := v)
    }
  }

  /** The stored sub-rating of a dimension. */
  function SubRating(g: ShareGame, d: Dim): Option<int> {
    match d
    case Gameplay => g.ratingGameplay
    case Visuals => g.ratingVisuals
    case Story => g.ratingStory
    case Subjective => g.ratingSubjective
    case Character => g.ratingCharacter
  }

  /** Each slider starts at its own sub-rating, else at the overall rating. */
  function InitialRatings(g: ShareGame): (r: LocalRatings)
    ensures forall d :: r.Get(d) == SubRating(g, d).GetOr(g.rating)
  {
    LocalRatings(
      g.ratingGameplay.GetOr(g.rating),
      g.ratingVisuals.GetOr(g.rating),
      g.ratingStory.GetOr(g.rating),
      g.ratingSubjective.GetOr(g.rating),
      g.ratingCharacter.GetOr(g.rating))
  }

  /** `config.filter(c => !skipped.includes(c.key))`. */
  function Active(config: seq<Dim>, skipped: seq<string>): (r: seq<Dim>)
    ensures |r| <= |config|
    ensures forall d :: d in r <==> d in config && KeyOf(d) !in skipped
  {
    if config == [] then []
    else (if KeyOf(config[0]) in skipped then [] else [config[0]]) + Active(config[1..], skipped)
  }

  /** A single element is kept or dropped on its own. */
  lemma ActiveOne(d: Dim, skipped: seq<string>)
    ensures Active([d], skipped) == if KeyOf(d) in skipped then [] else [d]
  {
    assert [d][1..] == [];
  }

  /** The test `Active` applies: a slider whose key is not skipped. */
  function NotSkipped(skipped: seq<string>): Dim -> bool {
    (d: Dim) => KeyOf(d) !in skipped
  }

  /** `Active` is `Array.prototype.filter` with that test. */
  lemma {:induction false} ActiveIsFilter(s: seq<Dim>, skipped: seq<string>)
    ensures Active(s, skipped) == Filtering.Filter(s, NotSkipped(skipped))
  {
    if s != [] {
      ActiveIsFilter(s[1..], skipped);
    }
  }

  /** The filter keeps order and repetitions: it distributes over concatenation. */
  lemma ActiveAppend(a: seq<Dim>, b: seq<Dim>, skipped: seq<string>)
    ensures Active(a + b, skipped) == Active(a, skipped) + Active(b, skipped)
  {
    ActiveIsFilter(a + b, skipped);
    ActiveIsFilter(a, skipped);
    ActiveIsFilter(b, skipped);
    Filtering.FilterAppend(a, b, NotSkipped(skipped));
  }

  /** `reduce((acc, c) => acc + ratings[c.key], 0)`. */
  function Sum(local: LocalRatings, ds: seq<Dim>): int {
    if ds == [] then 0 else local.Get(ds[0]) + Sum(local, ds[1..])
  }

  /** The overall rating the card writes: the rounded mean of the active sliders, or 0 when all are skipped. */
  function Average(local: LocalRatings, config: seq<Dim>, skipped: seq<string>): (avg: int)
    ensures Active(config, skipped) == [] ==> avg == 0
  {
    var active := Active(config, skipped);
    if |active| == 0 then 0 else Js.RoundDiv(Sum(local, active), |active|)
  }

  lemma MulSucc(x: int, n: int)
    ensures x * (n + 1) == x * n + x
  {
  }

  lemma {:induction false} SumBetween(local: LocalRatings, ds: seq<Dim>, lo: int, hi: int)
    requires forall d :: d in ds ==> lo <= local.Get(d) <= hi
    ensures lo * |ds| <= Sum(local, ds) <= hi * |ds|
  {
    if ds != [] {
      assert forall d :: d in ds[1..] ==> d in ds;
      SumBetween(local, ds[1..], lo, hi);
      var n := |ds[1..]|;
      assert |ds| == n + 1;
      MulSucc(lo, n);
      MulSucc(hi, n);
      assert Sum(local, ds) == local.Get(ds[0]) + Sum(local, ds[1..]);
    }
  }

  /** The mean lies between the least and the greatest active slider value. */
  lemma AverageBetween(local: LocalRatings, config: seq<Dim>, skipped: seq<string>, lo: int, hi: int)
    requires Active(config, skipped) != []
    requires forall d :: d in config && KeyOf(d) !in skipped ==> lo <= local.Get(d) <= hi
    ensures lo <= Average(local, config, skipped) <= hi
  {
    var active := Active(config, skipped);
    SumBetween(local, active, lo, hi);
    Js.RoundDivBetween(Sum(local, active), |active|, lo, hi);
  }

  /** When every active slider shows the same value, that value is the mean. */
  lemma AverageOfEqualValues(local: LocalRatings, config: seq<Dim>, skipped: seq<string>, v: int)
    requires Active(config, skipped) != []
    requires forall d :: d in config && KeyOf(d) !in skipped ==> local.Get(d) == v
    ensures Average(local, config, skipped) == v
  {
    AverageBetween(local, config, skipped, v, v);
  }

  lemma {:induction false} SumAgrees(l1: LocalRatings, l2: LocalRatings, ds: seq<Dim>)
    requires forall d :: d in ds ==> l1.Get(d) == l2.Get(d)
    ensures Sum(l1, ds) == Sum(l2, ds)
  {
    if ds != [] {
      assert forall d :: d in ds[1..] ==> d in ds;
      SumAgrees(l1, l2, ds[1..]);
    }
  }

  /** Only active configured sliders count: values of skipped or unconfigured dimensions never change the mean. */
  lemma AverageDependsOnlyOnActive(l1: LocalRatings, l2: LocalRatings, config: seq<Dim>, skipped: seq<string>)
    requires forall d :: d in config && KeyOf(d) !in skipped ==> l1.Get(d) == l2.Get(d)
    ensures Average(l1, config, skipped) == Average(l2, config, skipped)
  {
    SumAgrees(l1, l2, Active(config, skipped));
  }

  /** A game list's mean ignores the character slider, a manga list's the gameplay slider. */
  lemma UnconfiguredDimensionIgnored(local: LocalRatings, skipped: seq<string>, v: int)
    ensures Average(local.With(Character, v), RatingConfig(GameList), skipped) == Average(local, RatingConfig(GameList), skipped)
    ensures Average(local.With(Gameplay, v), RatingConfig(MangaList), skipped) == Average(local, RatingConfig(MangaList), skipped)
  {
    AverageDependsOnlyOnActive(local.With(Character, v), local, RatingConfig(GameList), skipped);
    AverageDependsOnlyOnActive(local.With(Gameplay, v), local, RatingConfig(MangaList), skipped);
  }

  /** `s.filter(k => k !== key)`. */
  function RemoveAll(s: seq<string>, key: string): (r: seq<string>)
    ensures |r| <= |s|
    ensures forall x :: x in r <==> x in s && x != key
  {
    if s == [] then [] else (if s[0] == key then [] else [s[0]]) + RemoveAll(s[1..], key)
  }

  /** A single element is kept or dropped on its own. */
  lemma RemoveAllOne(x: string, key: string)
    ensures RemoveAll([x], key) == if x == key then [] else [x]
  {
    assert [x][1..] == [];
  }

  /** The test `RemoveAll` applies: a name other than the key. */
  function NotKey(key: string): string -> bool {
    (x: string) => x != key
  }

  /** `RemoveAll` is `Array.prototype.filter` with that test. */
  lemma {:induction false} RemoveAllIsFilter(s: seq<string>, key: string)
    ensures RemoveAll(s, key) == Filtering.Filter(s, NotKey(key))
  {
    if s != [] {
      RemoveAllIsFilter(s[1..], key);
    }
  }

  /** The filter keeps order and repetitions: it distributes over concatenation. */
  lemma RemoveAllAppend(a: seq<string>, b: seq<string>, key: string)
    ensures RemoveAll(a + b, key) == RemoveAll(a, key) + RemoveAll(b, key)
  {
    RemoveAllIsFilter(a + b, key);
    RemoveAllIsFilter(a, key);
    RemoveAllIsFilter(b, key);
    Filtering.FilterAppend(a, b, NotKey(key));
  }

  /** The new skip list: every occurrence of the key removed if present, else the key appended once. */
  function ToggledSkips(current: seq<string>, key: string): (r: seq<string>)
    ensures key in r <==> key !in current
    ensures forall x :: x != key ==> (x in r <==> x in current)
    ensures key !in current ==> r == current + [key]
  {
    if key in current then RemoveAll(current, key) else current + [key]
  }

  /** Two toggles of the same key restore the set of skipped names. */
  lemma ToggleTwice(current: seq<string>, key: string)
    ensures forall x :: x in ToggledSkips(ToggledSkips(current, key), key) <==> x in current
  {
  }

  /** The playtime field: a number, or the empty string when blank. */
  datatype HoursInput = Hours(h: int) | Blank

  /** `game.playtime ? Math.round(game.playtime / 60) : ''`. */
  function InitialHours(g: ShareGame): (r: HoursInput)
    ensures r.Blank? <==> g.playtime.None? || g.playtime.value == 0
  {
    if g.playtime.Some? && g.playtime.value != 0 then Hours(Js.RoundDiv(g.playtime.value, 60)) else Blank
  }

  /** The minutes the blur handler stores: hours times 60 for a positive number, else undefined. */
  function PlaytimeMinutes(input: HoursInput): (m: Option<int>)
    ensures m.Some? <==> input.Hours? && input.h > 0
    ensures m.Some? ==> m.value == 60 * input.h && m.value > 0
  {
    var hours := if input.Hours? then input.h else 0;
    if hours > 0 then Some(hours * 60) else None
  }

  /** Stored minutes read back as the same whole hours, so a re-rendered card shows what was typed. */
  lemma PlaytimeRoundTrip(g: ShareGame, h: int)
    requires h > 0
    requires g.playtime == PlaytimeMinutes(Hours(h))
    ensures InitialHours(g) == Hours(h)
  {
    assert Js.RoundDiv(60 * h, 60) == h;
  }

  /** The card's image: the item's cover, else the Steam header for its id. */
  function ImageUrl(g: ShareGame): (url: string)
    ensures url != ""
    ensures g.coverUrl != "" ==> url == g.coverUrl
    ensures g.coverUrl == "" ==> url == Steam.HeaderImageUrl(g.id)
  {
    if g.coverUrl != "" then g.coverUrl else Steam.HeaderImageUrl(g.id)
  }

  /** `{ id, reason }`. */
  function ReasonPatch(id: int, reason: string): GamePatch {
    EmptyPatch(id).(reason := Some(Some(reason)))
  }

  /** `{ id, playtime: minutes }`; an undefined value is written too. */
  function PlaytimePatch(id: int, minutes: Option<int>): GamePatch {
    EmptyPatch(id).(playtime := Some(minutes))
  }

  /** `{ id, ...updatedRatings, rating: avg }`. */
  function RatingsPatch(id: int, r: LocalRatings, avg: int): GamePatch {
    EmptyPatch(id).(
      rating := Some(avg),
      ratingGameplay := Some(Some(r.gameplay)),
      ratingVisuals := Some(Some(r.visuals)),
      ratingStory := Some(Some(r.story)),
      ratingSubjective := Some(Some(r.subjective)),
      ratingCharacter := Some(Some(r.character)))
  }

  /** `{ id, skippedRatings, rating: avg }`. */
  function SkipPatch(id: int, skipped: seq<string>, avg: int): GamePatch {
    EmptyPatch(id).(skippedRatings := Some(Some(skipped)), rating := Some(avg))
  }

  /** `{ id, tags }`. */
  function TagsPatch(id: int, tags: Tags): GamePatch {
    EmptyPatch(id).(tags := Some(Some(tags)))
  }

  /** Releasing a slider stores all five slider values and the new mean and leaves the other fields alone. */
  lemma RatingsPatchEffect(g: ShareGame, r: LocalRatings, avg: int)
    ensures var p := Patched(g, RatingsPatch(g.id, r, avg));
      && (forall d :: SubRating(p, d) == Some(r.Get(d)))
      && p.rating == avg
      && p == g.(rating := avg, ratingGameplay := Some(r.gameplay), ratingVisuals := Some(r.visuals),
                 ratingStory := Some(r.story), ratingSubjective := Some(r.subjective),
                 ratingCharacter := Some(r.character))
  {
  }

  /** A skip toggle changes only the skip list and the overall rating. */
  lemma SkipPatchEffect(g: ShareGame, skipped: seq<string>, avg: int)
    ensures Patched(g, SkipPatch(g.id, skipped, avg)) == g.(skippedRatings := Some(skipped), rating := avg)
  {
  }

  /** The card of one list item, with its local state and the store it writes to. */
  class Card {
    const store: Store
    const listId: Option<string>
    const readOnly: bool
    const listType: ListType
    /** The `game` prop as last rendered. */
    var game: ShareGame
    var reason: string
    var playtimeHours: HoursInput
    var localRatings: LocalRatings
    var localTags: Tags

    /** The handlers write only when the card is editable and has a (truthy) list id. */
    predicate Editable() {
      !readOnly && listId.Some? && listId.value != ""
    }

    constructor (store: Store, game: ShareGame, listId: Option<string>, readOnly: bool, listType: ListType)
      ensures this.store == store && this.game == game && this.listId == listId
      ensures this.readOnly == readOnly && this.listType == listType
      ensures reason == game.reason.GetOr("")
      ensures playtimeHours == InitialHours(game)
      ensures localRatings == InitialRatings(game)
      ensures localTags == game.tags.GetOr(map[])
    {
      this.store := store;
      this.game := game;
      this.listId := listId;
      this.readOnly := readOnly;
      this.listType := listType;
      reason := game.reason.GetOr("");
      playtimeHours := InitialHours(game);
      localRatings := InitialRatings(game);
      localTags := game.tags.GetOr(map[]);
    }

    /** The `useEffect` on a new `game` prop: sliders and tags are re-read, reason and hours are not. */
    method ReceiveGame(g: ShareGame)
      modifies this
      ensures game == g && localRatings == InitialRatings(g) && localTags == g.tags.GetOr(map[])
      ensures reason == old(reason) && playtimeHours == old(playtimeHours)
    {
      game := g;
      localRatings := InitialRatings(g);
      localTags := g.tags.GetOr(map[]);
    }

    /** Typing in the reason box changes only the local text. */
    method TypeReason(s: string)
      modifies this
      ensures reason == s && game == old(game) && playtimeHours == old(playtimeHours)
      ensures localRatings == old(localRatings) && localTags == old(localTags)
    {
      reason := s;
    }

    /** Typing in the playtime box changes only the local value. */
    method TypeHours(h: HoursInput)
      modifies this
      ensures playtimeHours == h && game == old(game) && reason == old(reason)
      ensures localRatings == old(localRatings) && localTags == old(localTags)
    {
      playtimeHours := h;
    }

    /** Moving a slider changes only the local value of that dimension. */
    method SlideTo(d: Dim, v: int)
      modifies this
      ensures localRatings == old(localRatings).With(d, v)
      ensures game == old(game) && reason == old(reason) && playtimeHours == old(playtimeHours)
      ensures localTags == old(localTags)
    {
      localRatings := localRatings.With(d, v);
    }

    /** On blur the reason is written when it differs from the stored one (an absent reason differs from `""`). */
    method ReasonBlur()
      modifies store
      ensures store.lists ==
        if Editable() && Some(reason) != game.reason
        then WithGamePatched(old(store.lists), listId.value, ReasonPatch(game.id, reason))
        else old(store.lists)
    {
      if !Editable() {
        return;
      }
      if Some(reason) != game.reason {
        store.UpdateGame(listId.value, ReasonPatch(game.id, reason));
      }
    }

    /** On blur the playtime is written when the minutes it stands for differ from the stored ones. */
    method PlaytimeBlur()
      modifies store
      ensures store.lists ==
        if Editable() && PlaytimeMinutes(playtimeHours) != game.playtime
        then WithGamePatched(old(store.lists), listId.value, PlaytimePatch(game.id, PlaytimeMinutes(playtimeHours)))
        else old(store.lists)
    {
      if !Editable() {
        return;
      }
      var minutes := PlaytimeMinutes(playtimeHours);
      if minutes != game.playtime {
        store.UpdateGame(listId.value, PlaytimePatch(game.id, minutes));
      }
    }

    /** Removing the item asks for confirmation; the answer is a parameter. */
    method Delete(confirmed: bool)
      modifies store
      ensures store.lists ==
        if Editable() && confirmed then WithGameRemoved(old(store.lists), listId.value, game.id)
        else old(store.lists)
    {
      if !Editable() {
        return;
      }
      if confirmed {
        store.RemoveGame(listId.value, game.id);
      }
    }

    /** Releasing a slider stores every slider value with the released one set, and their mean as the rating. */
    method RatingChangeEnd(d: Dim, v: int)
      modifies store
      ensures var updated := localRatings.With(d, v);
        store.lists ==
          if Editable()
          then WithGamePatched(old(store.lists), listId.value,
                 RatingsPatch(game.id, updated, Average(updated, RatingConfig(listType), game.skippedRatings.GetOr([]))))
          else old(store.lists)
    {
      if !Editable() {
        return;
      }
      var updated := localRatings.With(d, v);
      var skipped := game.skippedRatings.GetOr([]);
      var avg := Average(updated, RatingConfig(listType), skipped);
      store.UpdateGame(listId.value, RatingsPatch(game.id, updated, avg));
    }

    /** Toggling a dimension other than subjective flips its skip and recomputes the mean from the sliders. */
    method ToggleSkip(d: Dim)
      modifies store
      ensures var skipped := ToggledSkips(game.skippedRatings.GetOr([]), KeyOf(d));
        store.lists ==
          if Editable() && d != Subjective
          then WithGamePatched(old(store.lists), listId.value,
                 SkipPatch(game.id, skipped, Average(localRatings, RatingConfig(listType), skipped)))
          else old(store.lists)
    {
      if !Editable() {
        return;
      }
      if d == Subjective {
        return;
      }
      var skipped := ToggledSkips(game.skippedRatings.GetOr([]), KeyOf(d));
      var avg := Average(localRatings, RatingConfig(listType), skipped);
      store.UpdateGame(listId.value, SkipPatch(game.id, skipped, avg));
    }

    /** The tag editor's confirmation: stored and kept locally whenever a list id is set; `readOnly` is not checked. */
    method ConfirmTags(newTags: Tags)
      modifies this, store
      ensures listId.Some? && listId.value != "" ==>
        store.lists == WithGamePatched(old(store.lists), listId.value, TagsPatch(game.id, newTags)) && localTags == newTags
      ensures !(listId.Some? && listId.value != "") ==> store.lists == old(store.lists) && localTags == old(localTags)
      ensures game == old(game) && reason == old(reason) && playtimeHours == old(playtimeHours)
      ensures localRatings == old(localRatings)
    {
      if listId.Some? && listId.value != "" {
        store.UpdateGame(listId.value, TagsPatch(game.id, newTags));
        localTags := newTags;
      }
    }
  }
}
