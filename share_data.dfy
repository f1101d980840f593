/**
 * The share-list codec: a recommendation list is minified (one- and
 * two-letter keys, falsy optional fields dropped, skipped dimensions as
 * indices into `SkipMap`), serialised and compressed into a URL-safe token;
 * decoding reverses this, also accepts the older verbose shape, and yields
 * `None` on every failure.
 *
 * `JSON.stringify` + `LZString.compressToEncodedURIComponent` and their
 * inverses are a foreign library; they are the parameter `WireCodec`, and the
 * round-trip lemmas assume only that it is `Lossless`.
 */
module ShareData {
  import opened Wrappers
  import opened ShareStore
  import Steam

  /** Dimension names by wire index. The positions are part of the token format. */
  const SkipMap: seq<string> :=
    ["ratingGameplay", "ratingVisuals", "ratingStory", "ratingSubjective", "ratingCharacter"]

  /** A minified item; every optional key is `None` when the encoder leaves it out. */
  datatype MinGame = MinGame(
    i: int,              // id
    n: string,           // name
    r: int,              // rating
    rg: Option<int>,     // gameplay
    rv: Option<int>,     // visuals
    rs: Option<int>,     // story
    rj: Option<int>,     // subjective
    rc: Option<int>,     // character
    tg: Option<Tags>,    // tags
    cv: Option<string>,  // cover URL
    sk: Option<seq<int>>,// skipped dimensions, as SkipMap indices
    c: Option<string>)   // reason

  /** A minified list: title, `"g"` or `"m"`, items. */
  datatype MinList = MinList(t: string, tp: string, g: seq<MinGame>)

  /**
   * The value `JSON.parse` yields, as far as the decoder reads it. Anything
   * that is not an object (null, a number, an array) is `NotAnObject`. In an
   * object, a string key that is absent is represented by `""`, which every
   * truthiness test of the decoder treats the same way; `games` and `g` hold
   * arrays. The first five fields are the keys of the legacy verbose shape,
   * the last three those of the minified shape.
   */
  datatype Parsed =
    | NotAnObject
    | Object(
        id: string, title: string, kind: Option<Kind>, createdAt: int, games: Option<seq<ShareGame>>,
        t: string, tp: string, g: Option<seq<MinGame>>)

  /**
   * Serialisation plus compression (`pack`) and decompression plus parsing
   * (`unpack`); `unpack` yields `None` when the decompressed text is empty or
   * does not parse.
   */
  datatype WireCodec = WireCodec(pack: Parsed -> string, unpack: string -> Option<Parsed>)

  /** What the library promises: unpacking a packed value gives it back. */
  ghost predicate Lossless(c: WireCodec) {
    forall p :: c.unpack(c.pack(p)) == Some(p)
  }

  /** `if (x) m.k = x` for a number: zero is dropped like an absent value. */
  function TruthyNumber(x: Option<int>): (r: Option<int>)
    ensures r.Some? <==> x.Some? && x.value != 0
    ensures r.Some? ==> r == x
  {
    if x.Some? && x.value != 0 then x else None
  }

  /** `if (s) m.k = s` for a string: the empty string is dropped. */
  function TruthyText(x: Option<string>): (r: Option<string>)
    ensures r.Some? <==> x.Some? && x.value != ""
    ensures r.Some? ==> r == x
  {
    if x.Some? && x.value != "" then x else None
  }

  /** Tags travel only when there is at least one. */
  function NonEmptyTags(x: Option<Tags>): (r: Option<Tags>)
    ensures r.Some? <==> x.Some? && |x.value| > 0
    ensures r.Some? ==> r == x
  {
    if x.Some? && |x.value| > 0 then x else None
  }

  /** `SKIP_MAP.indexOf(k)`: the first position of `k`, or -1. */
  function IndexOf(s: seq<string>, k: string): (i: int)
    ensures -1 <= i < |s|
    ensures i >= 0 ==> s[i] == k && forall j :: 0 <= j < i ==> s[j] != k
    ensures i == -1 <==> k !in s
  {
    if s == [] then -1
    else if s[0] == k then 0
    else
      var j := IndexOf(s[1..], k);
      if j == -1 then -1 else j + 1
  }

  /** `ks.map(k => SKIP_MAP.indexOf(k)).filter(i => i !== -1)`. */
  function EncodeSkips(ks: seq<string>): (r: seq<int>)
    ensures |r| <= |ks|
    ensures forall j :: 0 <= j < |r| ==> 0 <= r[j] < |SkipMap|
  {
    if ks == [] then []
    else
      var i := IndexOf(SkipMap, ks[0]);
      (if i == -1 then [] else [i]) + EncodeSkips(ks[1..])
  }

  /** `ixs.map(i => SKIP_MAP[i]).filter(Boolean)`: an index outside the table reads `undefined` and is dropped. */
  function DecodeSkips(ixs: seq<int>): (r: seq<string>)
    ensures |r| <= |ixs|
    ensures forall j :: 0 <= j < |r| ==> r[j] in SkipMap
  {
    if ixs == [] then []
    else (if 0 <= ixs[0] < |SkipMap| then [SkipMap[ixs[0]]] else []) + DecodeSkips(ixs[1..])
  }

  /** The names of `ks` that the table knows, in order and with their repetitions. */
  function KnownSkips(ks: seq<string>): (r: seq<string>)
    ensures (forall j :: 0 <= j < |ks| ==> ks[j] in SkipMap) ==> r == ks
  {
    if ks == [] then []
    else (if ks[0] in SkipMap then [ks[0]] else []) + KnownSkips(ks[1..])
  }

  /** Skip lists survive as their known names: order and duplicates kept, unknown names dropped. */
  lemma {:induction false} SkipRoundTrip(ks: seq<string>)
    ensures DecodeSkips(EncodeSkips(ks)) == KnownSkips(ks)
  {
    if ks != [] {
      var i := IndexOf(SkipMap, ks[0]);
      var rest := EncodeSkips(ks[1..]);
      SkipRoundTrip(ks[1..]);
      if i == -1 {
        assert EncodeSkips(ks) == rest;
      } else {
        assert EncodeSkips(ks) == [i] + rest;
        assert ([i] + rest)[1..] == rest;
      }
    }
  }

  /** Decoding drops every index outside the table and keeps the others' names in order. */
  lemma {:induction false} DecodeSkipsDropsOutOfRange(ixs: seq<int>)
    requires forall j :: 0 <= j < |ixs| ==> !(0 <= ixs[j] < |SkipMap|)
    ensures DecodeSkips(ixs) == []
  {
    if ixs != [] {
      DecodeSkipsDropsOutOfRange(ixs[1..]);
    }
  }

  /** One item, minified as the encoder writes it. */
  function MinifyGame(kind: Option<Kind>, g: ShareGame): (m: MinGame)
    ensures m.i == g.id && m.n == g.name && m.r == g.rating
    ensures m.rg.Some? ==> m.rg.value != 0
    ensures m.rv.Some? ==> m.rv.value != 0
    ensures m.rs.Some? ==> m.rs.value != 0
    ensures m.rj.Some? ==> m.rj.value != 0
    ensures m.rc.Some? ==> m.rc.value != 0
    ensures m.tg.Some? ==> |m.tg.value| > 0
    ensures m.c.Some? ==> m.c.value != ""
    ensures m.cv.Some? <==> kind == Some(Manga) && g.coverUrl != ""
    ensures m.sk.Some? <==> g.skippedRatings.Some? && |g.skippedRatings.value| > 0
    ensures m.sk.Some? ==> forall j :: 0 <= j < |m.sk.value| ==> 0 <= m.sk.value[j] < |SkipMap|
  {
    MinGame(
      g.id, g.name, g.rating,
      TruthyNumber(g.ratingGameplay),
      TruthyNumber(g.ratingVisuals),
      TruthyNumber(g.ratingStory),
      TruthyNumber(g.ratingSubjective),
      TruthyNumber(g.ratingCharacter),
      NonEmptyTags(g.tags),
      if kind == Some(Manga) && g.coverUrl != "" then Some(g.coverUrl) else None,
      if g.skippedRatings.Some? && |g.skippedRatings.value| > 0
      then Some(EncodeSkips(g.skippedRatings.value)) else None,
      TruthyText(g.reason))
  }

  /** The minify step of `encodeShareList`; id and createdAt are not carried. */
  function Minify(list: ShareList): (m: MinList)
    ensures m.t == list.title
    ensures m.tp == "m" <==> list.kind == Some(Manga)
    ensures m.tp == "m" || m.tp == "g"
    ensures |m.g| == |list.games|
    ensures forall k :: 0 <= k < |m.g| ==> m.g[k] == MinifyGame(list.kind, list.games[k])
  {
    MinList(
      list.title,
      if list.kind == Some(Manga) then "m" else "g",
      seq(|list.games|, k requires 0 <= k < |list.games| => MinifyGame(list.kind, list.games[k])))
  }

  /** The object `JSON.stringify` receives: only the minified keys are present. */
  function Payload(m: MinList): Parsed {
    Object("", "", None, 0, None, m.t, m.tp, Some(m.g))
  }

  /** `encodeShareList`. */
  function Encode(codec: WireCodec, list: ShareList): string {
    codec.pack(Payload(Minify(list)))
  }

  /** One item rebuilt from its short keys; a missing or empty cover becomes the Steam CDN URL. */
  function ExpandGame(mg: MinGame): (g: ShareGame)
    ensures g.id == mg.i && g.name == mg.n && g.rating == mg.r
    ensures g.coverUrl == if mg.cv.Some? && mg.cv.value != "" then mg.cv.value else Steam.HeaderImageUrl(mg.i)
    ensures g.skippedRatings.Some? <==> mg.sk.Some?
    ensures g.playtime == None
  {
    ShareGame(
      mg.i, mg.n,
      if mg.cv.Some? && mg.cv.value != "" then mg.cv.value else Steam.HeaderImageUrl(mg.i),
      mg.r, mg.rg, mg.rv, mg.rs, mg.rj, mg.rc,
      if mg.sk.Some? then Some(DecodeSkips(mg.sk.value)) else None,
      mg.c, mg.tg, None)
  }

  /** The id every list decoded from the minified shape carries. */
  const ImportedId: string := "imported"

  /**
   * `decodeShareList` after decompression and parsing: the legacy shape
   * (truthy `games` and `title`) is returned as it is with `type` defaulted to
   * game; otherwise `t` and `g` must be truthy and the items are expanded.
   */
  function DecodeParsed(p: Parsed, now: int): (r: Option<ShareList>)
    ensures r.Some? ==> r.value.title != "" && r.value.kind.Some?
    ensures r.Some? <==> p.Object? && ((p.games.Some? && p.title != "") || (p.g.Some? && p.t != ""))
    ensures r.Some? && p.games.None? ==>
      r.value.id == ImportedId && r.value.createdAt == now && |r.value.games| == |p.g.value|
  {
    match p
    case NotAnObject => None
    case Object(id, title, kind, createdAt, games, t, tp, g) =>
      if games.Some? && title != "" then
        Some(ShareList(id, title, Some(kind.GetOr(Game)), createdAt, games.value))
      else if g.None? || t == "" then None
      else
        Some(ShareList(
          ImportedId, t, Some(if tp == "m" then Manga else Game), now,
          seq(|g.value|, k requires 0 <= k < |g.value| => ExpandGame(g.value[k]))))
  }

  /** `decodeShareList`: never fails other than by returning `None`. */
  function Decode(codec: WireCodec, token: string, now: int): (r: Option<ShareList>)
    ensures codec.unpack(token).None? ==> r.None?
    ensures r.Some? ==> r.value.title != ""
  {
    match codec.unpack(token)
    case None => None
    case Some(p) => DecodeParsed(p, now)
  }

  /**
   * What of one item survives encode and decode, field by field: zero
   * sub-ratings, an empty reason, empty tags and an empty skip list vanish;
   * skip names are reduced to the known ones; playtime is not carried; the
   * cover is kept only for manga lists with a non-empty cover and is
   * otherwise rebuilt from the id.
   */
  function Survivor(kind: Option<Kind>, g: ShareGame): ShareGame {
    g.(coverUrl := if kind == Some(Manga) && g.coverUrl != "" then g.coverUrl else Steam.HeaderImageUrl(g.id),
       ratingGameplay := TruthyNumber(g.ratingGameplay),
       ratingVisuals := TruthyNumber(g.ratingVisuals),
       ratingStory := TruthyNumber(g.ratingStory),
       ratingSubjective := TruthyNumber(g.ratingSubjective),
       ratingCharacter := TruthyNumber(g.ratingCharacter),
       skippedRatings :=
         if g.skippedRatings.Some? && |g.skippedRatings.value| > 0
         then Some(KnownSkips(g.skippedRatings.value)) else None,
       reason := TruthyText(g.reason),
       tags := NonEmptyTags(g.tags),
       playtime := None)
  }

  /** The list a round trip yields: placeholder id, decode time, explicit kind, surviving items. */
  function RoundTripImage(list: ShareList, now: int): ShareList {
    ShareList(
      ImportedId, list.title, Some(list.kind.GetOr(Game)), now,
      seq(|list.games|, k requires 0 <= k < |list.games| => Survivor(list.kind, list.games[k])))
  }

  lemma RoundTripItem(kind: Option<Kind>, g: ShareGame)
    ensures ExpandGame(MinifyGame(kind, g)) == Survivor(kind, g)
  {
    if g.skippedRatings.Some? && |g.skippedRatings.value| > 0 {
      SkipRoundTrip(g.skippedRatings.value);
    }
  }

  /** Encoding then decoding a list with a non-empty title yields its round-trip image. */
  lemma RoundTrip(codec: WireCodec, list: ShareList, now: int)
    requires Lossless(codec)
    requires list.title != ""
    ensures Decode(codec, Encode(codec, list), now) == Some(RoundTripImage(list, now))
  {
    var m := Minify(list);
    assert codec.unpack(codec.pack(Payload(m))) == Some(Payload(m));
    var r := DecodeParsed(Payload(m), now);
    var img := RoundTripImage(list, now);
    assert r.Some?;
    assert |r.value.games| == |img.games|;
    forall k | 0 <= k < |img.games| ensures r.value.games[k] == img.games[k] {
      RoundTripItem(list.kind, list.games[k]);
    }
    assert r.value.games == img.games;
    assert r.value.kind == img.kind by {
      if list.kind.Some? { assert list.kind.value == Game || list.kind.value == Manga; }
    }
    assert r.value == img;
  }

  /** A list titled `""` does not survive: the minified decoder rejects a falsy `t`. */
  lemma EmptyTitleDoesNotRoundTrip(codec: WireCodec, list: ShareList, now: int)
    requires Lossless(codec)
    requires list.title == ""
    ensures Decode(codec, Encode(codec, list), now) == None
  {
    assert codec.unpack(codec.pack(Payload(Minify(list)))) == Some(Payload(Minify(list)));
  }

  /** An item the format can carry exactly: nothing falsy, known skips only, no playtime, a rebuildable cover. */
  predicate Canonical(kind: Option<Kind>, g: ShareGame) {
    && (g.ratingGameplay.Some? ==> g.ratingGameplay.value != 0)
    && (g.ratingVisuals.Some? ==> g.ratingVisuals.value != 0)
    && (g.ratingStory.Some? ==> g.ratingStory.value != 0)
    && (g.ratingSubjective.Some? ==> g.ratingSubjective.value != 0)
    && (g.ratingCharacter.Some? ==> g.ratingCharacter.value != 0)
    && (g.reason.Some? ==> g.reason.value != "")
    && (g.tags.Some? ==> |g.tags.value| > 0)
    && (g.skippedRatings.Some? ==>
          |g.skippedRatings.value| > 0 && forall j :: 0 <= j < |g.skippedRatings.value| ==> g.skippedRatings.value[j] in SkipMap)
    && g.playtime.None?
    && (if kind == Some(Manga) && g.coverUrl != "" then true else g.coverUrl == Steam.HeaderImageUrl(g.id))
  }

  /** For canonical items the round trip is exact in every field but id, createdAt and the explicit kind. */
  lemma ExactRoundTrip(codec: WireCodec, list: ShareList, now: int)
    requires Lossless(codec)
    requires list.title != ""
    requires forall k :: 0 <= k < |list.games| ==> Canonical(list.kind, list.games[k])
    ensures Decode(codec, Encode(codec, list), now) ==
      Some(list.(id := ImportedId, createdAt := now, kind := Some(list.kind.GetOr(Game))))
  {
    RoundTrip(codec, list, now);
    var img := RoundTripImage(list, now);
    forall k | 0 <= k < |list.games| ensures img.games[k] == list.games[k] {
      var g := list.games[k];
      assert Survivor(list.kind, g) == g;
    }
    assert img.games == list.games;
  }

  /** Title, item count, order, ids, names and ratings always survive, and the kind is kept in its two-valued form. */
  lemma RoundTripPreserves(codec: WireCodec, list: ShareList, now: int, k: int)
    requires Lossless(codec)
    requires list.title != ""
    requires 0 <= k < |list.games|
    ensures var r := Decode(codec, Encode(codec, list), now);
      && r.Some? && r.value.title == list.title && |r.value.games| == |list.games|
      && r.value.games[k].id == list.games[k].id
      && r.value.games[k].name == list.games[k].name
      && r.value.games[k].rating == list.games[k].rating
      && (r.value.kind == Some(Manga) <==> list.kind == Some(Manga))
  {
    RoundTrip(codec, list, now);
  }

  /** A sub-rating of 0, an empty reason and empty tags come back absent; playtime never comes back. */
  lemma FalsyFieldsVanish(codec: WireCodec, list: ShareList, now: int, k: int)
    requires Lossless(codec)
    requires list.title != ""
    requires 0 <= k < |list.games|
    ensures var g, d := list.games[k], Decode(codec, Encode(codec, list), now).value.games[k];
      && (g.ratingStory == Some(0) ==> d.ratingStory == None)
      && (g.ratingGameplay == Some(0) ==> d.ratingGameplay == None)
      && (g.reason == Some("") ==> d.reason == None)
      && (g.tags == Some(map[]) ==> d.tags == None)
      && (g.skippedRatings == Some([]) ==> d.skippedRatings == None)
      && d.playtime == None
  {
    RoundTrip(codec, list, now);
  }

  /** On a game list every cover is rebuilt from the id; on a manga list a missing cover also gets the Steam URL. */
  lemma CoverIsRebuilt(codec: WireCodec, list: ShareList, now: int, k: int)
    requires Lossless(codec)
    requires list.title != ""
    requires 0 <= k < |list.games|
    requires list.kind != Some(Manga) || list.games[k].coverUrl == ""
    ensures Decode(codec, Encode(codec, list), now).value.games[k].coverUrl ==
      Steam.HeaderImageUrl(list.games[k].id)
  {
    RoundTrip(codec, list, now);
  }

  /** A list with no items decodes to a list with no items, not to `None`. */
  lemma EmptyListRoundTrip(codec: WireCodec, list: ShareList, now: int)
    requires Lossless(codec)
    requires list.title != "" && list.games == []
    ensures Decode(codec, Encode(codec, list), now) ==
      Some(ShareList(ImportedId, list.title, Some(list.kind.GetOr(Game)), now, []))
  {
    RoundTrip(codec, list, now);
    assert RoundTripImage(list, now).games == [];
  }

  /** The verbose shape the older encoder wrote: the stored list itself. */
  function LegacyPayload(list: ShareList): Parsed {
    Object(list.id, list.title, list.kind, list.createdAt, Some(list.games), "", "", None)
  }

  /** A legacy token decodes to the list as it was, keeping its id and createdAt, with `type` defaulted to game. */
  lemma LegacyRoundTrip(codec: WireCodec, list: ShareList, now: int)
    requires Lossless(codec)
    requires list.title != ""
    ensures Decode(codec, codec.pack(LegacyPayload(list)), now) == Some(list.(kind := Some(list.kind.GetOr(Game))))
  {
    assert codec.unpack(codec.pack(LegacyPayload(list))) == Some(LegacyPayload(list));
  }

  /** A legacy list with an empty title is not recognised as legacy and has no minified keys either. */
  lemma LegacyEmptyTitleFails(codec: WireCodec, list: ShareList, now: int)
    requires Lossless(codec)
    requires list.title == ""
    ensures Decode(codec, codec.pack(LegacyPayload(list)), now) == None
  {
    assert codec.unpack(codec.pack(LegacyPayload(list))) == Some(LegacyPayload(list));
  }

  /** The wire type is `"m"` exactly for manga lists and decodes back to manga only from `"m"`. */
  lemma KindOnTheWire(list: ShareList, tp: string, t: string, g: seq<MinGame>, now: int)
    requires t != ""
    ensures (Minify(list).tp == "m") == (list.kind == Some(Manga))
    ensures DecodeParsed(Object("", "", None, 0, None, t, tp, Some(g)), now).value.kind ==
      Some(if tp == "m" then Manga else Game)
  {
  }

  /** The fallback cover of app 440, spelled out. */
  lemma CoverOf440()
    ensures Steam.HeaderImageUrl(440) == "https://cdn.cloudflare.steamstatic.com/steam/apps/440/header.jpg"
  {
  }
}
