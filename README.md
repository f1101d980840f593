# reiSteamYear, modelled in Dafny

reiSteamYear is a Next.js web application. A Steam user signs in and sees
the games they played in the last 365 days. They can rate and review each
game, exclude games, and export a year-summary card. They can have an AI
model write a report on their taste. They can also build recommendation
lists of games or manga, and share any list as a compressed URL token.

This project models the logic behind those features and proves properties
of it:

- the share-list codec (minify, encode, decode, the legacy shape) and its round trip;
- the two persisted stores: the review store and the share-list store;
- the review card, the editable share-list card, and the tag editor;
- the predefined attribute table and its label and color lookups, including the string hash for unknown tags;
- the year-summary statistics;
- the AI report's statistics, two-tier context and step machine;
- the AI settings store, the endpoint URLs, and the cleanup of reply text;
- the `GET /api/games` and `GET /api/image-proxy` handlers;
- the navigation bar's active-link rule.

There is one Dafny module per source file. A few shared modules sit beside them:

- `Wrappers` holds `Option`.
- `Js` holds the JavaScript semantics the code relies on: `Math.round` of a quotient, 32-bit `<<`, UTF-16 length, `trim`, global `replace`, and removal of one trailing `/`.
- `Sorting` models `Array.prototype.sort` with a numeric comparator as a stable insertion sort on values. `Sorting.SortInPlace` is the in-place form on an `array`.
- `Filtering` models `Array.prototype.filter`. Each filter of the code is proved equal to it with that filter's own test, so each filter keeps order and repetitions.
- `Steam` holds the owned-game record, the CDN header URL, and the playtime total.

State that the source updates in place is a Dafny `class` with `modifies`
clauses. This covers the Zustand stores and the React state of the two card
components, the tag editor and the report dialog. Each class method states
its new state through a function on the old state. The properties are
lemmas about those functions. Of the four arrays the source sorts in place,
the report's shared `games` prop and the route's result are Dafny `array`s.
The other two are fresh locals that nothing else holds (the report's copy
`[...games]` and the summary's `ratedGames`), so they are sorted as values.

Things outside the program become parameters:

- the JSON and LZString codec (`ShareData.WireCodec`; the round-trip lemmas only assume it is lossless);
- fresh ids from `uuidv4()` and the clock `Date.now()`;
- the answer to `confirm()`;
- the Steam fetches, which are `None` when they throw;
- the results of `decodeURIComponent` and `new URL()`;
- the upstream fetch of the image proxy;
- the AI call's success or failure.

Three behaviours of the code a reader may not expect, which the model follows:

- A legacy-shaped token keeps its own `id` and `createdAt`; they are not regenerated (`src/utils/shareData.ts` lines 81-87).
- A manga item without a cover decodes to the Steam CDN header URL, not to an empty string (lines 100-104).
- `playtime` is never encoded, and a game-list item's cover is always rebuilt from its id (lines 32-67).

## Model

| member | source | states |
|---|---|---|
| ShareData.TruthyNumber | src/utils/shareData.ts:40-44 | a sub-rating travels exactly when it is present and non-zero, unchanged |
| ShareData.TruthyText | src/utils/shareData.ts:50 | a reason travels exactly when it is present and non-empty |
| ShareData.NonEmptyTags | src/utils/shareData.ts:46-48 | tags travel exactly when there is at least one |
| ShareData.IndexOf | src/utils/shareData.ts:62 | `indexOf`: the first position of the key, or -1 exactly when it is absent |
| ShareData.EncodeSkips | src/utils/shareData.ts:60-64 | every encoded skip is a valid table index; never longer than the input |
| ShareData.DecodeSkips | src/utils/shareData.ts:118 | every decoded skip is a dimension name of the table |
| ShareData.KnownSkips | src/utils/shareData.ts:26 | a skip list of known names only is its own known part |
| ShareData.SkipRoundTrip | src/utils/shareData.ts:60-64 | decoding the encoded skips gives the known names, in order and with repetitions |
| ShareData.DecodeSkipsDropsOutOfRange | src/utils/shareData.ts:118 | indices outside the table are all dropped |
| ShareData.MinifyGame | src/utils/shareData.ts:32-66 | id, name and rating always kept; optional keys present only when truthy; cover only on manga lists; skips only when non-empty and as valid indices |
| ShareData.Minify | src/utils/shareData.ts:29-68 | title kept; type `"m"` exactly for manga lists, else `"g"`; one minified item per item, in order |
| ShareData.ExpandGame | src/utils/shareData.ts:99-121 | id, name and rating come back; a missing or empty cover becomes the Steam header URL; no playtime |
| ShareData.DecodeParsed | src/utils/shareData.ts:78-122 | a list comes out exactly when the value is an object of the legacy shape with a title, or of the minified shape with `t` and `g`; its title is non-empty and its type is set |
| ShareData.Decode | src/utils/shareData.ts:73-127 | an empty or unparsable decompression yields `None`; a decoded list always has a title |
| ShareData.RoundTripItem | src/utils/shareData.ts:32-67 | expanding a minified item gives exactly the item's surviving fields |
| ShareData.RoundTrip | src/utils/shareData.ts:28-122 | decode(encode(list)) is the list with placeholder id, decode time, explicit type and surviving items |
| ShareData.EmptyTitleDoesNotRoundTrip | src/utils/shareData.ts:90 | a list with an empty title decodes to `None` |
| ShareData.ExactRoundTrip | src/utils/shareData.ts:28-122 | for items with nothing falsy, known skips only, no playtime and a rebuildable cover, the round trip restores every item exactly |
| ShareData.RoundTripPreserves | src/utils/shareData.ts:30-36 | title, item count, order, ids, names and ratings always survive; the type survives in its two-valued form |
| ShareData.FalsyFieldsVanish | src/utils/shareData.ts:40-50 | a zero sub-rating, empty reason and empty tags come back absent; playtime never comes back |
| ShareData.CoverIsRebuilt | src/utils/shareData.ts:56-58 | on game lists, and for coverless manga items, the decoded cover is the Steam URL of the id |
| ShareData.EmptyListRoundTrip | src/utils/shareData.ts:90 | a titled list with no items decodes to a list with no items |
| ShareData.LegacyRoundTrip | src/utils/shareData.ts:81-87 | a legacy token gives the stored list back with its own id and date and the type defaulted to game |
| ShareData.LegacyEmptyTitleFails | src/utils/shareData.ts:81 | a legacy list with an empty title is rejected |
| ShareData.KindOnTheWire | src/utils/shareData.ts:92 | the wire type is `"m"` exactly for manga and decodes to manga only from `"m"` |
| ShareData.CoverOf440 | src/utils/shareData.ts:103 | the fallback cover URL, spelled out for one id |
| ShareData.Lossless | src/utils/shareData.ts:70-75 | the one thing assumed of the compression library: decompressing what it compressed gives the same JSON value back |
| ShareData.Payload | src/utils/shareData.ts:29-68 | the object handed to `JSON.stringify`: only the keys `t`, `tp` and `g` of the minified list are present |
| ShareData.Encode | src/utils/shareData.ts:28-71 | `encodeShareList` packs the minified payload; `ShareData.RoundTrip` proves that decoding it gives `RoundTripImage` back |
| ShareData.Survivor | src/utils/shareData.ts:32-66 | what of one item survives the format: falsy sub-ratings, reason and tags vanish, skips keep their known names, playtime is dropped, the cover is kept only for manga lists and otherwise rebuilt from the id |
| ShareData.RoundTripImage | src/utils/shareData.ts:28-122 | the list that a round trip yields: the import placeholder id, the decode time, an explicit kind, and each item's `Survivor` |
| ShareData.Canonical | src/utils/shareData.ts:40-64 | an item the format carries exactly: no falsy optional field, only known skip names, no playtime, a cover the decoder rebuilds; `ShareData.ExactRoundTrip` proves such lists come back unchanged |
| ShareData.LegacyPayload | src/utils/shareData.ts:81-87 | the verbose shape of older tokens, the stored list itself; `ShareData.LegacyRoundTrip` proves it decodes to that list |
| ShareStore.PatchedIdempotent | src/store/useShareStore.ts:96 | merging a patch twice is merging it once; an id-only patch changes nothing |
| ShareStore.WithoutList | src/store/useShareStore.ts:63-66 | the lists kept are exactly those with another id; nothing changes when no list has the id |
| ShareStore.WithoutListAppend | src/store/useShareStore.ts:65 | deleting distributes over concatenation, so the remaining lists keep their order |
| ShareStore.Retitled | src/store/useShareStore.ts:67-72 | the matching lists take the new title, every other list is unchanged, the length is kept |
| ShareStore.WithGameAdded | src/store/useShareStore.ts:73-80 | the matching lists get the game appended, others unchanged |
| ShareStore.GamesWithout | src/store/useShareStore.ts:85 | the games kept are exactly those with another id; a list without the id is returned unchanged |
| ShareStore.GamesWithoutIsFilter | src/store/useShareStore.ts:85 | the removal is `Array.prototype.filter` with the other-id test |
| ShareStore.GamesWithoutOne | src/store/useShareStore.ts:85 | a single game is kept exactly when its id differs |
| ShareStore.GamesWithoutAppend | src/store/useShareStore.ts:85 | removing distributes over concatenation, so the other games keep their order and repetitions |
| ShareStore.WithGameRemoved | src/store/useShareStore.ts:81-88 | the game leaves the matching lists only |
| ShareStore.PatchGames | src/store/useShareStore.ts:95-97 | games with the patch's id are merged with it, the others are unchanged, ids and length kept |
| ShareStore.WithGamePatched | src/store/useShareStore.ts:89-101 | the patch reaches matching games of matching lists only |
| ShareStore.PatchTouchesOnlyItsFields | src/store/useShareStore.ts:96 | a field the patch leaves out keeps its value; a field it names takes the patch's value |
| ShareStore.Store.constructor | src/store/useShareStore.ts:39 | the store starts with no lists |
| ShareStore.Store.ImportList | src/store/useShareStore.ts:40-50 | appends the imported list under a fresh id and the current time, keeping title and games |
| ShareStore.Store.CreateList | src/store/useShareStore.ts:51-62 | appends one empty list without a type |
| ShareStore.Store.DeleteList | src/store/useShareStore.ts:63-66 | the new lists are `WithoutList` of the old |
| ShareStore.Store.UpdateListTitle | src/store/useShareStore.ts:67-72 | the new lists are `Retitled` of the old |
| ShareStore.Store.AddGame | src/store/useShareStore.ts:73-80 | the new lists are `WithGameAdded` of the old |
| ShareStore.Store.RemoveGame | src/store/useShareStore.ts:81-88 | the new lists are `WithGameRemoved` of the old |
| ShareStore.Store.UpdateGame | src/store/useShareStore.ts:89-101 | the new lists are `WithGamePatched` of the old |
| ShareStore.EmptyPatch | src/store/useShareStore.ts:96 | a patch that carries only the game's id, so spreading it changes nothing (`GameCard.MergeEmptyPatch` and `ShareStore.PatchTouchesOnlyItsFields`) |
| ShareStore.Patched | src/store/useShareStore.ts:96 | `{ ...g, ...game }`: each field the patch carries replaces the game's, every other field keeps the game's value; `ShareStore.PatchedIdempotent` and `ShareStore.PatchTouchesOnlyItsFields` are proved about it |
| ShareStore.OtherId | src/store/useShareStore.ts:85 | the test of the removal filter, `g => g.id !== gameId`; `ShareStore.GamesWithoutIsFilter` proves the filter is `Filtering.Filter` with it |
| ReviewStore.WithReview | src/store/useReviewStore.ts:20-23 | the app's entry is the new review, one key added at most, every other entry unchanged |
| ReviewStore.WithReviewIdempotent | src/store/useReviewStore.ts:22 | adding a review twice is adding it once; a later review for the same app wins |
| ReviewStore.WithReviewCommutes | src/store/useReviewStore.ts:22 | reviews of two different apps can be added in either order |
| ReviewStore.WithReviewReplaces | src/store/useReviewStore.ts:22 | the entry is replaced, not merged: an earlier exclusion flag is gone |
| ReviewStore.Store.constructor | src/store/useReviewStore.ts:19 | the store starts with no reviews |
| ReviewStore.Store.AddReview | src/store/useReviewStore.ts:20-23 | the new reviews are `WithReview` of the old |
| GameCard.Merged | src/components/GameCard.tsx:26-32 | each field given by the patch wins; otherwise rating, status and comment fall back to the review's (its comment included), and with no review to 0, played and `""`; the exclusion flag only survives if the patch names it |
| GameCard.MergeEmptyPatch | src/components/GameCard.tsx:27-31 | an empty patch keeps the review except its exclusion flag; with no review it gives the shown defaults |
| GameCard.MergeFullPatch | src/components/GameCard.tsx:31 | a patch naming every field gives exactly its values |
| GameCard.StatusChangeDropsExclusion | src/components/GameCard.tsx:61 | changing the status of an excluded game through the card stores it without the flag |
| GameCard.HoursPlayed | src/components/GameCard.tsx:23 | the nearest whole hour to the minutes, halves rounded up |
| GameCard.ImageUrlByAppId | src/components/GameCard.tsx:22 | two games have the same image exactly when they have the same app id |
| GameCard.EmptyReviewPatch | src/components/GameCard.tsx:26-32 | a `Partial<GameReview>` with no key, for which `GameCard.MergeEmptyPatch` proves the merge keeps the review or fills in the defaults |
| GameCard.ShownStatus | src/components/GameCard.tsx:60 | the status the control shows: the review's own status, or played when there is no review |
| GameCard.ShownRating | src/components/GameCard.tsx:73 | the stars shown: the review's rating, a stored 0 included, or 0 when there is no review |
| GameCard.ImageUrl | src/components/GameCard.tsx:22 | the card's image is the Steam CDN header URL of the game's app id; `GameCard.ImageUrlByAppId` proves it depends on the app id alone and is distinct per app |
| ShareGameCard.KeyOf | src/components/ShareGameCard.tsx:39-49 | each dimension's key is one of the five rating field names |
| ShareGameCard.KeyOfInjective | src/components/ShareGameCard.tsx:39-49 | different dimensions have different keys |
| ShareGameCard.RatingConfig | src/components/ShareGameCard.tsx:39-49 | four distinct sliders, subjective last, visuals and story always; gameplay exactly on game lists, character exactly on manga lists |
| ShareGameCard.LocalRatings.With | src/components/ShareGameCard.tsx:95 | sets one dimension, every other dimension unchanged |
| ShareGameCard.InitialRatings | src/components/ShareGameCard.tsx:30-36 | each slider starts at its own sub-rating, else at the overall rating |
| ShareGameCard.Active | src/components/ShareGameCard.tsx:98 | the active sliders are exactly the configured ones whose key is not skipped |
| ShareGameCard.ActiveIsFilter | src/components/ShareGameCard.tsx:98 | the active sliders are `Array.prototype.filter` with the not-skipped test |
| ShareGameCard.ActiveOne | src/components/ShareGameCard.tsx:98 | a single slider is kept exactly when its key is not skipped |
| ShareGameCard.ActiveAppend | src/components/ShareGameCard.tsx:98 | the filter distributes over concatenation, so the active sliders keep the configured order |
| ShareGameCard.Average | src/components/ShareGameCard.tsx:101-102 | the mean is 0 when every slider is skipped |
| ShareGameCard.SumBetween | src/components/ShareGameCard.tsx:101 | a sum of values between lo and hi lies between lo and hi times the count |
| ShareGameCard.AverageBetween | src/components/ShareGameCard.tsx:101-102 | the rounded mean lies between the least and the greatest active slider value |
| ShareGameCard.AverageOfEqualValues | src/components/ShareGameCard.tsx:101-102 | when all active sliders agree, that value is the mean |
| ShareGameCard.SumAgrees | src/components/ShareGameCard.tsx:101 | sums over the same dimensions agree when the values agree there |
| ShareGameCard.AverageDependsOnlyOnActive | src/components/ShareGameCard.tsx:98-102 | values of skipped or unconfigured sliders never change the mean |
| ShareGameCard.UnconfiguredDimensionIgnored | src/components/ShareGameCard.tsx:39-49 | the character slider never counts on a game list, the gameplay slider never on a manga list |
| ShareGameCard.RemoveAll | src/components/ShareGameCard.tsx:117 | the names kept are exactly those other than the key |
| ShareGameCard.RemoveAllIsFilter | src/components/ShareGameCard.tsx:117 | the removal is `Array.prototype.filter` with the other-name test |
| ShareGameCard.RemoveAllOne | src/components/ShareGameCard.tsx:117 | a single name is kept exactly when it is not the key |
| ShareGameCard.RemoveAllAppend | src/components/ShareGameCard.tsx:117 | the filter distributes over concatenation, so the other names keep their order and repetitions |
| ShareGameCard.ToggledSkips | src/components/ShareGameCard.tsx:115-118 | the key is skipped afterwards exactly when it was not; other names unchanged; a new key is appended once |
| ShareGameCard.ToggleTwice | src/components/ShareGameCard.tsx:115-118 | two toggles restore the set of skipped names |
| ShareGameCard.InitialHours | src/components/ShareGameCard.tsx:24 | the hours field is blank exactly when there is no playtime or it is zero |
| ShareGameCard.PlaytimeMinutes | src/components/ShareGameCard.tsx:75-76 | minutes are stored exactly for a positive number of hours, as hours times 60 |
| ShareGameCard.PlaytimeRoundTrip | src/components/ShareGameCard.tsx:24 | stored minutes read back as the hours that were typed |
| ShareGameCard.ImageUrl | src/components/ShareGameCard.tsx:89 | the cover when there is one, else the Steam header for the id; never empty |
| ShareGameCard.RatingsPatchEffect | src/components/ShareGameCard.tsx:104-108 | releasing a slider stores all five values and the mean, touching nothing else |
| ShareGameCard.SkipPatchEffect | src/components/ShareGameCard.tsx:127-131 | a skip toggle changes only the skip list and the overall rating |
| ShareGameCard.Card.constructor | src/components/ShareGameCard.tsx:22-36 | reason, hours, sliders and tags start from the game |
| ShareGameCard.Card.ReceiveGame | src/components/ShareGameCard.tsx:54-63 | a new game prop re-reads sliders and tags but not reason or hours |
| ShareGameCard.Card.TypeReason | src/components/ShareGameCard.tsx:22 | typing changes only the local reason |
| ShareGameCard.Card.TypeHours | src/components/ShareGameCard.tsx:24 | typing changes only the local hours |
| ShareGameCard.Card.SlideTo | src/components/ShareGameCard.tsx:30 | sliding changes only that dimension's local value |
| ShareGameCard.Card.ReasonBlur | src/components/ShareGameCard.tsx:66-71 | writes the reason only when editable, with a list id, and different from the stored one |
| ShareGameCard.Card.PlaytimeBlur | src/components/ShareGameCard.tsx:73-80 | writes the minutes only when editable, with a list id, and different from the stored ones |
| ShareGameCard.Card.Delete | src/components/ShareGameCard.tsx:82-87 | removes the item only when editable, with a list id, and confirmed |
| ShareGameCard.Card.RatingChangeEnd | src/components/ShareGameCard.tsx:92-109 | stores every slider with the released one set, and their mean over the active sliders as the rating |
| ShareGameCard.Card.ToggleSkip | src/components/ShareGameCard.tsx:111-132 | toggles any dimension but subjective and stores the new skips with the mean of the local sliders |
| ShareGameCard.Card.ConfirmTags | src/components/ShareGameCard.tsx:302 | with a list id the tags are stored and kept locally, whatever `readOnly` says; otherwise nothing changes |
| ShareGameCard.LocalRatings.Get | src/components/ShareGameCard.tsx:101 | `ratings[c.key]`: the slider value of one dimension |
| ShareGameCard.SubRating | src/components/ShareGameCard.tsx:31-35 | the stored sub-rating of one dimension, the field each slider starts from |
| ShareGameCard.NotSkipped | src/components/ShareGameCard.tsx:98 | the test of the active-slider filter, `c => !skipped.includes(c.key)`; `ShareGameCard.ActiveIsFilter` proves `Active` is `Filtering.Filter` with it |
| ShareGameCard.Sum | src/components/ShareGameCard.tsx:101 | `reduce((acc, c) => acc + ratings[c.key], 0)`; `ShareGameCard.SumBetween` and `ShareGameCard.SumAgrees` bound it and show it reads only the listed dimensions |
| ShareGameCard.NotKey | src/components/ShareGameCard.tsx:117 | the test of the un-skip filter, `k => k !== key`; `ShareGameCard.RemoveAllIsFilter` proves `RemoveAll` is `Filtering.Filter` with it |
| ShareGameCard.ReasonPatch | src/components/ShareGameCard.tsx:69 | the patch `{ id, reason }`: only the reason is present besides the id |
| ShareGameCard.PlaytimePatch | src/components/ShareGameCard.tsx:78 | the patch `{ id, playtime: minutes }`: the playtime key is present even when its value is `undefined` |
| ShareGameCard.RatingsPatch | src/components/ShareGameCard.tsx:104-108 | the patch `{ id, ...updatedRatings, rating: avg }`; `ShareGameCard.RatingsPatchEffect` proves applying it sets all five sub-ratings and the mean and nothing else |
| ShareGameCard.SkipPatch | src/components/ShareGameCard.tsx:127-131 | the patch `{ id, skippedRatings, rating: avg }`; `ShareGameCard.SkipPatchEffect` proves applying it sets the skip list and the mean and nothing else |
| ShareGameCard.TagsPatch | src/components/ShareGameCard.tsx:302 | the patch `{ id, tags }`: only the tags are present besides the id |
| ShareGameCard.Card.Editable | src/components/ShareGameCard.tsx:67 | the negation of the guard every handler starts with: the card is not read-only and has a non-empty list id |
| AttributeManager.WithTagAdded | src/components/AttributeManagerModal.tsx:22-28 | no change at four tags; below that the key gets the score; other keys unchanged; never past four |
| AttributeManager.WithoutTag | src/components/AttributeManagerModal.tsx:30-34 | the key is gone, other keys unchanged |
| AttributeManager.WithScore | src/components/AttributeManagerModal.tsx:36-41 | a parsed score is set, a NaN changes nothing, other keys unchanged |
| AttributeManager.AddAtCapIgnoresExistingKey | src/components/AttributeManagerModal.tsx:23 | at the limit even an existing key's score stays as it was |
| AttributeManager.AddOverwritesScore | src/components/AttributeManagerModal.tsx:27 | below the limit, adding an existing key resets it to the default score |
| AttributeManager.ScoreChangeIgnoresCap | src/components/AttributeManagerModal.tsx:39 | a score change can add a fifth tag |
| AttributeManager.ZeroScoredTagReAdded | src/components/AttributeManagerModal.tsx:45 | a tag scored 0 is not truthy, so its name is accepted again and re-added |
| AttributeManager.InheritedNameRejected | src/components/AttributeManagerModal.tsx:45 | a name that is not a tag but an `Object.prototype` property is rejected |
| AttributeManager.AcceptedNames | src/components/AttributeManagerModal.tsx:44-45 | a non-blank name is accepted exactly when it is a tag scored 0, or neither a tag nor an inherited property |
| AttributeManager.TagEditor.constructor | src/components/AttributeManagerModal.tsx:14-15 | the working copy starts as the current tags, the name field empty |
| AttributeManager.TagEditor.Open | src/components/AttributeManagerModal.tsx:18-20 | reopening resets the working copy and keeps the typed name |
| AttributeManager.TagEditor.TypeName | src/components/AttributeManagerModal.tsx:15 | typing changes only the name field |
| AttributeManager.TagEditor.AddTag | src/components/AttributeManagerModal.tsx:22-28 | the tags become `WithTagAdded` of the old; the four-tag limit is kept |
| AttributeManager.TagEditor.RemoveTag | src/components/AttributeManagerModal.tsx:30-34 | the tags become `WithoutTag` of the old; the limit is kept |
| AttributeManager.TagEditor.ScoreChange | src/components/AttributeManagerModal.tsx:36-41 | the tags become `WithScore` of the old |
| AttributeManager.TagEditor.AddCustomTag | src/components/AttributeManagerModal.tsx:43-48 | a blank name, or one whose lookup on the tag record is truthy (a tag with a non-zero score, or a property every object inherits such as `toString`), changes nothing; otherwise the trimmed name is added and the field cleared; the limit is kept |
| AttributeManager.TagEditor.Save | src/components/AttributeManagerModal.tsx:50-53 | hands over exactly the working copy |
| AttributeManager.LookupTruthy | src/components/AttributeManagerModal.tsx:45 | whether `tags[name]` is truthy: an own tag is truthy exactly when its score is not 0; a name without an own tag is truthy when it is a property every object inherits |
| AttributeManager.CustomNameRejected | src/components/AttributeManagerModal.tsx:44-45 | adding a custom tag is refused when the trimmed name is empty or looking it up is truthy; `AttributeManager.AcceptedNames` and `AttributeManager.InheritedNameRejected` are proved about it |
| AttributeManager.TagEditor.WithinLimit | src/components/AttributeManagerModal.tsx:23 | the working copy holds at most the four tags the add buttons allow |
| Constants.FindForColor | src/lib/constants.ts:35 | finds an entry matching by value or label, and fails exactly when none does |
| Constants.FindByValue | src/lib/constants.ts:49 | finds an entry with that value, and fails exactly when none has it |
| Constants.FindForColorIn | src/lib/constants.ts:34-37 | over all categories: a match found, or none exists |
| Constants.FindByValueIn | src/lib/constants.ts:48-51 | over all categories: a value match found, or none exists |
| Constants.LabelOf | src/lib/constants.ts:47-53 | a key that is no value of the table is shown as itself |
| Constants.PaletteColor | src/lib/constants.ts:39-44 | the hash color is always one of the twelve palette colors |
| Constants.GetAttributeColor | src/lib/constants.ts:33-45 | the loop with its early return and the hash loop compute `ColorOf` |
| Constants.UnknownTagColorInPalette | src/lib/constants.ts:38-44 | a tag outside the table gets a palette color |
| Constants.CategoriesInternal | src/lib/constants.ts:1-29 | within each category, values and labels are distinct, non-empty, and no label is a value |
| Constants.TableUnambiguous | src/lib/constants.ts:1-29 | across the whole table, each value and each label names one entry and never both kinds |
| Constants.NoEntryForEmptyKey | src/lib/constants.ts:35 | the empty key matches no entry |
| Constants.EmptyKeyColor | src/lib/constants.ts:40-44 | the empty key hashes to 0 and gets `blue.4` |
| Constants.FindsTheOnlyColorMatch | src/lib/constants.ts:34-37 | when exactly one entry matches, the scan returns it |
| Constants.FindsTheOnlyValueMatch | src/lib/constants.ts:48-51 | when exactly one entry has the value, the scan returns it |
| Constants.PredefinedLookups | src/lib/constants.ts:33-53 | a predefined value shows its label and color, its label shows its color, and the label as key shows itself |
| Constants.ColorOfLabelIsColorOfValue | src/lib/constants.ts:33-53 | the color of a value's label is the value's color |
| Constants.LabelNeverMatchesLabel | src/lib/constants.ts:49 | the label lookup matches by value only |
| Constants.MatchesValueOrLabel | src/lib/constants.ts:35 | the test of the color lookup: the entry's value or its label equals the key |
| Constants.HashStep | src/lib/constants.ts:42 | one step of the hash, `code + ((hash << 5) - hash)`, with the shift wrapped to 32 bits and the sum not wrapped |
| Constants.HashUnits | src/lib/constants.ts:40-43 | the hash loop folded over the key's UTF-16 code units from the left, starting at 0 |
| Constants.Abs | src/lib/constants.ts:44 | `Math.abs` on an integer |
| Constants.ColorOf | src/lib/constants.ts:33-45 | `getAttributeColor`: the color of the first table entry matching by value or label, otherwise the palette color of the key's hash; `Constants.GetAttributeColor` computes it as the loops do |
| Constants.EmptyKeyPaletteColor | src/lib/constants.ts:40-44 | the empty key hashes to 0 and so gets the first palette color, `blue.4` |
| Summary.Kept | src/app/summary/page.tsx:38 | the kept games are exactly the games that are not excluded |
| Summary.KeptIsFilter | src/app/summary/page.tsx:38 | the kept games are `Array.prototype.filter` with the not-excluded test |
| Summary.KeptOne | src/app/summary/page.tsx:38 | a single game is kept exactly when it is not excluded |
| Summary.KeptAppend | src/app/summary/page.tsx:38 | the filter distributes over concatenation, so kept games keep their order and repetitions |
| Summary.KeptIdempotent | src/app/summary/page.tsx:38 | filtering twice is filtering once |
| Summary.CountStatus | src/app/summary/page.tsx:42-47 | a status count never exceeds the games counted |
| Summary.StatusCountsAddUp | src/app/summary/page.tsx:44-47 | the three status counts add up to the number of reviewed games |
| Summary.Rated | src/app/summary/page.tsx:48-50 | every rated entry has a positive rating, which is its game's review rating; every game whose review rates it above 0 has its entry |
| Summary.ShowUser | src/app/summary/page.tsx:68 | the shown name is the session's name when that is non-empty, else `User`; the image is the session's when non-empty, else `""` |
| Summary.SummaryOf | src/app/summary/page.tsx:22-76 | a summary exists exactly when games and a session user are there |
| Summary.LoopStep | src/app/summary/page.tsx:42-59 | what one more game adds to each tally |
| Summary.Tally | src/app/summary/page.tsx:42-59 | the loop's counters and rated list are the status counts and `Rated` of the kept games |
| Summary.ComputeSummary | src/app/summary/page.tsx:22-76 | the computation gives `SummaryOf` |
| Summary.CountsWithinTotal | src/app/summary/page.tsx:42-69 | the status counts add up to at most the games counted |
| Summary.TopGamesShape | src/app/summary/page.tsx:62-74 | at most three top games, descending by rating, each rated, played and not excluded |
| Summary.TopGamesAreBest | src/app/summary/page.tsx:62-74 | no rated game left out is rated above one in the top three |
| Summary.RatedEntryCompetes | src/app/summary/page.tsx:62-74 | an entry of the rated list is in the top three or rated no higher than each of them |
| Summary.EveryRatedGameCompetes | src/app/summary/page.tsx:48-74 | a kept game rated above 0 is in the top three or rated no higher than each of them |
| Summary.ExcludedGamesIgnored | src/app/summary/page.tsx:38-69 | every statistic is the same with or without the excluded games in the input |
| Summary.Excluded | src/app/summary/page.tsx:38 | a game is excluded exactly when it has a review whose `excluded` is true |
| Summary.NotExcluded | src/app/summary/page.tsx:38 | the test of the summary's filter, `g => !reviews[g.appid]?.excluded`; `Summary.KeptIsFilter` proves `Kept` is `Filtering.Filter` with it |
| Summary.CountReviewed | src/app/summary/page.tsx:42-47 | how many games have a review; `Summary.StatusCountsAddUp` proves the three status counts add up to it |
| Summary.NegRating | src/app/summary/page.tsx:62 | the comparator `(a, b) => b.rating - a.rating` as an ascending key |
| Summary.Min | src/app/summary/page.tsx:74 | the length `slice(0, 3)` keeps: the smaller of 3 and the list's length |
| Summary.Top | src/app/summary/page.tsx:62-74 | the top games: the rated games sorted by descending rating, ties kept in list order, cut to the first three; `Summary.TopGamesShape` and `Summary.TopGamesAreBest` are proved about it |
| Js.TrimIsSlice | src/components/AttributeManagerModal.tsx:44-46 | `trim` keeps a slice of the input and drops only white space on either side |
| Js.RoundDiv | src/components/AIReportModal.tsx:59 | `Math.round(p / q)`: the nearest integer to the quotient, halves rounded up, as `2qr <= 2p + q < 2q(r + 1)` states |
| Js.RoundDivBetween | src/components/ShareGameCard.tsx:102 | a rounded quotient stays between any integer bounds the exact quotient lies between |
| Js.RoundDivMonotone | src/components/ShareGameCard.tsx:102 | rounding a quotient keeps the order of the numerators |
| Js.ToInt32 | src/lib/constants.ts:42 | ECMAScript ToInt32: the result lies in [-2^31, 2^31) and differs from the input by a multiple of 2^32 |
| Js.ShiftLeft5 | src/lib/constants.ts:42 | `x << 5`: the operand and the product go through ToInt32, so the result is a 32-bit signed value |
| Js.CodeUnits | src/lib/constants.ts:42 | the UTF-16 code units of one character: one unit below U+10000, a surrogate pair above, each below 0x10000 |
| Js.Utf16 | src/lib/constants.ts:41-42 | a string as `charCodeAt` sees it: between one and two code units per character, each below 0x10000 |
| Js.Length | src/lib/ai-client.ts:47 | `.length`: the number of UTF-16 code units, between the number of characters and twice it |
| Js.NatToString | src/components/GameCard.tsx:22 | the decimal digits of a natural number in a template literal: one digit exactly below 10 |
| Js.NatToStringInjective | src/components/GameCard.tsx:22 | different natural numbers render as different digit strings |
| Js.IntToString | src/components/GameCard.tsx:22 | `${n}` for an integer: it starts with `-` exactly when the number is negative |
| Js.IntToStringInjective | src/components/GameCard.tsx:22 | different integers render differently, so an id can be read back from a URL built with it |
| Js.IsSpace | src/components/AttributeManagerModal.tsx:44 | the white space and line terminators `trim` removes |
| Js.TrimStart | src/components/AttributeManagerModal.tsx:44 | drops the leading white space: a suffix that does not start with white space, everything dropped being white space |
| Js.TrimEnd | src/components/AttributeManagerModal.tsx:44 | drops the trailing white space: a prefix that does not end with white space, everything dropped being white space |
| Js.Trim | src/components/AttributeManagerModal.tsx:44-46 | `trim()` neither starts nor ends with white space, and is empty exactly when the input is all white space |
| Js.StripTrailingSlash | src/lib/ai-client.ts:66 | `replace(/\/$/, '')`: either exactly one trailing `/` is removed, or the string does not end with `/` and is unchanged |
| Js.OccursAt | src/lib/ai-client.ts:199 | the pattern occurs at a given position of the string |
| Js.ReplaceAll | src/lib/ai-client.ts:199 | `replace(/pat/g, rep)` for a literal pattern, leftmost matches first; a string in which the pattern does not occur comes back unchanged |
| Sorting.SortBy | src/app/api/games/route.ts:38 | the sort is ascending in the key and a permutation |
| Sorting.SortByMembers | src/app/api/games/route.ts:38 | sorting keeps exactly the elements |
| Sorting.InsertKeepsTies | src/app/api/games/route.ts:38 | an inserted element goes in front of every element with the same key |
| Sorting.SortByIsStable | src/app/api/games/route.ts:38 | the sort is stable: the elements with any one key keep their input order |
| Sorting.SortedPrefixIsLeast | src/app/summary/page.tsx:74 | no element after a sorted prefix has a smaller key than one in it |
| Sorting.SortInPlace | src/components/AIReportModal.tsx:32 | the array afterwards holds the stable sort of its old contents |
| Sorting.SortedBy | src/app/api/games/route.ts:38 | a sequence is in ascending order of a numeric key |
| Sorting.Insert | src/app/api/games/route.ts:38 | inserting into a sorted sequence keeps it sorted, adds exactly the element to the multiset, and puts it before every element whose key is not smaller |
| Sorting.WithKey | src/app/api/games/route.ts:38 | the elements with a given key in their order; `Sorting.SortByIsStable` proves sorting keeps that subsequence |
| Steam.HeaderImageUrlInjective | src/components/GameCard.tsx:22 | different app ids give different header URLs |
| Steam.TotalWithout | src/app/api/games/route.ts:43 | removing one game removes its playtime from the total |
| Steam.TotalPlaytimeOfPermutation | src/app/api/games/route.ts:43 | the total playtime does not depend on the order of the games |
| Steam.HeaderImageUrl | src/components/GameCard.tsx:22 | the Steam CDN header URL built from the app id alone; `Steam.HeaderImageUrlInjective` proves different ids give different URLs |
| Steam.PlaytimeOf | src/components/AIReportModal.tsx:32 | the ascending key `(a, b) => a.playtime_forever - b.playtime_forever` |
| Steam.NegPlaytime | src/app/api/games/route.ts:38 | the comparator `(a, b) => b.playtime_forever - a.playtime_forever` as an ascending key |
| Steam.TotalPlaytime | src/app/api/games/route.ts:43 | `reduce((acc, g) => acc + g.playtime_forever, 0)`; `Steam.TotalPlaytimeOfPermutation` proves it does not depend on the order |
| AIReport.CountShort | src/components/AIReportModal.tsx:30 | never more short games than games |
| AIReport.CountLong | src/components/AIReportModal.tsx:31 | never more long games than games |
| AIReport.ShortAndLongApart | src/components/AIReportModal.tsx:30-31 | short and long together never exceed the total |
| AIReport.SortedKeysAgree | src/components/AIReportModal.tsx:32 | two ascending orders of the same games agree on the playtime at every index |
| AIReport.MedianOfAnySortedOrder | src/components/AIReportModal.tsx:32 | the median is the middle playtime of any ascending order of the games |
| AIReport.MedianIsAPlaytime | src/components/AIReportModal.tsx:32 | the median is some game's playtime and at least the shortest one |
| AIReport.ComputeStats | src/components/AIReportModal.tsx:29-59 | the statistics are `StatsOf` the old games, and the array is left sorted ascending |
| AIReport.Fill | src/components/AIReportModal.tsx:42-45 | topping up only adds ids |
| AIReport.FillTakesAPrefix | src/components/AIReportModal.tsx:42-45 | the loop adds the ids of a prefix of the list |
| AIReport.FillStopsAtCap | src/components/AIReportModal.tsx:43 | the loop stops before the end only when the set holds 30 ids |
| AIReport.FillAddsBelowCap | src/components/AIReportModal.tsx:43-44 | every id is added while the set holds fewer than 30 |
| AIReport.FillBound | src/components/AIReportModal.tsx:42-45 | topping up never goes past 30 ids unless the reviews alone do |
| AIReport.BuildTier1 | src/components/AIReportModal.tsx:41-45 | the loop with its `break` computes `Fill` |
| AIReport.Tier1Contents | src/components/AIReportModal.tsx:35-45 | tier 1 is every reviewed id plus the ids of the most-played prefix |
| AIReport.Tier1HasEveryGameBelowCap | src/components/AIReportModal.tsx:42-45 | below 30 ids every game is in tier 1 |
| AIReport.Tier1Bound | src/components/AIReportModal.tsx:43 | tier 1 holds at most 30 ids unless the reviews alone are more |
| AIReport.Rest | src/components/AIReportModal.tsx:50 | tier-2 games are exactly the games whose id is not in tier 1 |
| AIReport.RestIsFilter | src/components/AIReportModal.tsx:50 | tier 2 is `Array.prototype.filter` with the not-in-tier-1 test |
| AIReport.RestOne | src/components/AIReportModal.tsx:50 | a single game is kept exactly when its id is not in tier 1 |
| AIReport.RestAppend | src/components/AIReportModal.tsx:50 | the filter distributes over concatenation, so tier-2 games keep their order and repetitions |
| AIReport.RestKeepsOrder | src/components/AIReportModal.tsx:50 | the filter keeps the sorted order |
| AIReport.TiersPartition | src/components/AIReportModal.tsx:50-54 | each game's entry is in tier 2 exactly when its id is not in tier 1 |
| AIReport.Tier2Ascending | src/components/AIReportModal.tsx:32-54 | tier-2 hours only go up, because the in-place sort came first |
| AIReport.PrepareContext | src/components/AIReportModal.tsx:27-61 | the context is `ContextOf` the old games, and the array is left sorted |
| AIReport.ContextTier2Ascending | src/components/AIReportModal.tsx:27-61 | tier 2 of the context lists games from least to most played |
| AIReport.Tier2Shown | src/components/AIReportModal.tsx:134 | at most the first 50 tier-2 entries go into the prompt |
| AIReport.CommentExcerpt | src/components/AIReportModal.tsx:131 | an empty comment adds nothing; otherwise a non-empty prefix of at most 50 code units, the whole comment when short enough |
| AIReport.UnconfiguredStartStays | src/components/AIReportModal.tsx:73-77 | an unconfigured start changes no step |
| AIReport.StepsInOrder | src/components/AIReportModal.tsx:67-142 | generating only after fetching completes, done only on a reply, fetching only on a configured start, idle after a failure |
| AIReport.NoStartNoFetch | src/components/AIReportModal.tsx:67-79 | without a configured start the dialog stays idle |
| AIReport.Dialog.constructor | src/components/AIReportModal.tsx:20-23 | idle, with the settings closed |
| AIReport.Dialog.StartProcess | src/components/AIReportModal.tsx:73-79 | the step after a start; the settings open when unconfigured |
| AIReport.Dialog.QueueChanged | src/components/AIReportModal.tsx:67-82 | moves to generating when the fetch completes |
| AIReport.Dialog.ReportFinished | src/components/AIReportModal.tsx:136-143 | done on a reply, idle on a failure |
| AIReport.Min | src/components/AIReportModal.tsx:131 | the length a `slice` from 0 keeps: the smaller of the bound and the length |
| AIReport.Max | src/components/AIReportModal.tsx:42-45 | the bound on tier 1's size: the larger of the reviewed count and 30 |
| AIReport.IsShort | src/components/AIReportModal.tsx:30 | the short-games test, `g.playtime_forever < 300` |
| AIReport.IsLong | src/components/AIReportModal.tsx:31 | the long-games test, `g.playtime_forever > 1200` |
| AIReport.CountShortIsFilter | src/components/AIReportModal.tsx:30 | the short count is the length of `Filtering.Filter` with the short-games test |
| AIReport.CountLongIsFilter | src/components/AIReportModal.tsx:31 | the long count is the length of `Filtering.Filter` with the long-games test |
| AIReport.MedianOf | src/components/AIReportModal.tsx:32 | the playtime at index `n / 2` of the ascending sort, 0 for no games; `AIReport.MedianOfAnySortedOrder` and `AIReport.MedianIsAPlaytime` are proved about it |
| AIReport.StatsOf | src/components/AIReportModal.tsx:29-59 | the statistics: the total, the short and long counts, and the median rounded to whole hours; `AIReport.ComputeStats` computes them as the memo does |
| AIReport.SortedPrefix | src/components/AIReportModal.tsx:32 | a prefix of a sorted sequence is sorted |
| AIReport.SortedKeysAgreeNonEmpty | src/components/AIReportModal.tsx:32 | two non-empty sorted orders of the same multiset have the same key at every index, so the median does not depend on the sort's tie order |
| AIReport.AppIds | src/components/AIReportModal.tsx:38-44 | the set of app ids of a list of games |
| AIReport.FillStop | src/components/AIReportModal.tsx:42-45 | how many games the topping-up loop visits before its `break`: at most the list's length |
| AIReport.AppIdsPrefix | src/components/AIReportModal.tsx:42-44 | the ids of the first k + 1 games are the first game's and those of the next k |
| AIReport.Tier1 | src/components/AIReportModal.tsx:35-45 | tier 1: the reviewed ids, topped up along the descending-playtime order until 30 are held; `AIReport.Tier1Contents` and `AIReport.Tier1Bound` are proved about it |
| AIReport.AppIdsOfSorted | src/components/AIReportModal.tsx:41 | sorting keeps the set of app ids |
| AIReport.NotInTier1 | src/components/AIReportModal.tsx:50 | the test of the tier-2 filter, `g => !tier1Ids.has(g.appid)`; `AIReport.RestIsFilter` proves `Rest` is `Filtering.Filter` with it |
| AIReport.EntryOf | src/components/AIReportModal.tsx:51-54 | one tier-2 entry: the id, the name and the playtime rounded to whole hours |
| AIReport.Tier2 | src/components/AIReportModal.tsx:50-54 | tier 2: an entry for each game of the list that is not in tier 1, in the list's order; `AIReport.TiersPartition` and `AIReport.Tier2Ascending` are proved about it |
| AIReport.ContextOf | src/components/AIReportModal.tsx:27-61 | the memoised context: the statistics, then both tiers over the ascending order the sort left; `AIReport.PrepareContext` computes it in place |
| AIReport.FetchComplete | src/components/AIReportModal.tsx:68 | the effect's condition: the queue is not fetching, has fetched everything, and was given something |
| AIReport.Next | src/components/AIReportModal.tsx:67-142 | the dialog's step after an event; `AIReport.StepsInOrder` proves the order in which steps can be reached |
| AIReport.Run | src/components/AIReportModal.tsx:67-142 | the step after a sequence of events; `AIReport.NoStartNoFetch` and `AIReport.EmptyQueueKeepsFetching` are proved about it |
| AIReport.EmptyQueueKeepsFetching | src/components/AIReportModal.tsx:67-71 | while the queue reports a total of 0, as it does when it was given no ids, the dialog stays at fetching whatever else the events say |
| GamesRoute.EnNames | src/app/api/games/route.ts:21 | one entry per app id of the English list |
| GamesRoute.EnNamesLastWins | src/app/api/games/route.ts:21 | for a repeated id, the last game's name is kept |
| GamesRoute.WithEnglishName | src/app/api/games/route.ts:24-27 | adds the English name, falling back to the Chinese one when it is missing or empty; nothing else changes |
| GamesRoute.Played | src/app/api/games/route.ts:24-35 | the games kept are exactly the merged games last played after the cutoff |
| GamesRoute.PlayedOne | src/app/api/games/route.ts:24-35 | a single game, renamed, is kept exactly when last played after the cutoff |
| GamesRoute.PlayedAppend | src/app/api/games/route.ts:24-35 | the filter distributes over concatenation, so played games keep the list order |
| GamesRoute.Respond | src/app/api/games/route.ts:6-49 | 401 exactly when signed out; 500 exactly when signed in and a fetch threw |
| GamesRoute.Get | src/app/api/games/route.ts:6-49 | the handler, sorting in place, gives `Respond` |
| GamesRoute.GamesResponse | src/app/api/games/route.ts:33-44 | the games listed are a permutation of the played games, longest first, with their count and total |
| GamesRoute.ListedGamesArePlayedGames | src/app/api/games/route.ts:24-41 | a game is listed exactly when it is a merged game played after the cutoff |
| GamesRoute.CutoffIsStrict | src/app/api/games/route.ts:31-34 | a game last played exactly 365 days ago is left out; one second later it is kept |
| GamesRoute.LaterEnglishNameWins | src/app/api/games/route.ts:21 | with an id listed twice, the later English name wins |
| GamesRoute.SignedOut | src/app/api/games/route.ts:10 | the request is refused when there is no session or its Steam id is missing or empty |
| GamesRoute.Cutoff | src/app/api/games/route.ts:31 | one year before now in Unix seconds: the floor of the milliseconds over 1000, less 365 days |
| GamesRoute.PlayedFirst | src/app/api/games/route.ts:24-35 | one step of the merge-and-filter: the first game is kept, renamed, exactly when it was played after the cutoff, followed by the rest's result |
| AIClient.Merged | src/lib/ai-client.ts:46 | every setting the patch names replaces the stored one |
| AIClient.MergeIdempotent | src/lib/ai-client.ts:46 | a patch applied twice is applied once; the empty patch changes nothing |
| AIClient.MergeComposes | src/lib/ai-client.ts:46 | two patches in a row act as the second laid over the first |
| AIClient.ConfiguredIffLongKey | src/lib/ai-client.ts:47 | usable exactly when the key is longer than five code units; the defaults are not usable |
| AIClient.ApiBase | src/lib/ai-client.ts:64-83 | a custom base with one trailing `/` removed, else the OpenAI base |
| AIClient.Endpoint | src/lib/ai-client.ts:64-74 | custom base + `/chat/completions`; else the Google URL with model and key; else OpenAI |
| AIClient.ModelsUrl | src/lib/ai-client.ts:78-83 | the model list lives at the same base + `/models` |
| AIClient.CustomWithoutBaseIsOpenAI | src/lib/ai-client.ts:65-80 | a custom provider without a base URL uses OpenAI at both URLs |
| AIClient.GoogleModelsFromOpenAI | src/lib/ai-client.ts:78-80 | a Google configuration asks OpenAI for its model list |
| AIClient.CustomUrlsShareBase | src/lib/ai-client.ts:66-83 | the chat and models URLs share one base |
| AIClient.OnlyOneSlashDropped | src/lib/ai-client.ts:66 | only one trailing `/` is dropped |
| AIClient.GoogleKeyInUrl | src/lib/ai-client.ts:70 | the Google endpoint ends in the API key |
| AIClient.CleanReply | src/lib/ai-client.ts:193-199 | an absent or empty reply becomes `{}` |
| AIClient.NoFenceLeft | src/lib/ai-client.ts:199 | after removing every "```" from left to right none is left |
| AIClient.CleanReplyHasNoFence | src/lib/ai-client.ts:193-199 | the cleaned reply never contains a code fence |
| AIClient.PlainReplyUnchanged | src/lib/ai-client.ts:193-199 | a non-empty reply without fences is parsed as it came |
| AIClient.FencedReplyUnwrapped | src/lib/ai-client.ts:199 | a reply wrapped in a JSON code block comes out as the block's text |
| AIClient.ConfigStore.constructor | src/lib/ai-client.ts:42-45 | the store starts at the defaults |
| AIClient.ConfigStore.SetConfig | src/lib/ai-client.ts:46 | the new settings are `Merged` of the old with the patch |
| AIClient.ConfigStore.IsConfigured | src/lib/ai-client.ts:47 | answers `Configured` of the current settings |
| AIClient.Configured | src/lib/ai-client.ts:47 | `!!apiKey && apiKey.length > 5`, the length in UTF-16 code units; `AIClient.ConfiguredIffLongKey` proves the emptiness test adds nothing |
| AIClient.HasCustomBase | src/lib/ai-client.ts:65 | the provider is custom and the base URL is present and not empty, so the custom base is used |
| AIClient.JsonFenceRemoved | src/lib/ai-client.ts:199 | the first replacement removes the opening ` ```json ` line of a fenced reply |
| AIClient.ClosingFenceRemoved | src/lib/ai-client.ts:199 | the second replacement removes the closing fence |
| AIClient.ConfigStore.Config | src/lib/ai-client.ts:34-45 | the four settings the store holds, as one configuration value |
| ImageProxy.Respond | src/app/api/image-proxy/route.ts:3-83 | always 400 or 200; a 400 is a plain-text message with no cache or origin header; a 200 allows any origin |
| ImageProxy.BadRequestIff | src/app/api/image-proxy/route.ts:7-38 | 400 exactly when the parameter is missing, or the decoded URL does not parse, has another host, or has another protocol |
| ImageProxy.UpstreamOnlyFromAllowedHosts | src/app/api/image-proxy/route.ts:31-65 | the upstream image is served exactly for an allowed host over http or https after an OK answer |
| ImageProxy.PlaceholderIff | src/app/api/image-proxy/route.ts:51-81 | the placeholder comes exactly when decoding throws or an allowed URL's fetch fails |
| ImageProxy.UpstreamHeaders | src/app/api/image-proxy/route.ts:57-65 | the upstream content type is kept, or JPEG without one, cached for a day |
| ImageProxy.HostCheckedFirst | src/app/api/image-proxy/route.ts:31-38 | a foreign host is reported as such whatever its protocol |
| ImageProxy.HostMatchIsExact | src/app/api/image-proxy/route.ts:15-31 | a subdomain of an allowed host is refused, and so is an allowed host over another protocol |
| ImageProxy.BadRequest | src/app/api/image-proxy/route.ts:8 | a 400 response with the given message, the plain-text type a string body gets, and no other header |
| ImageProxy.Allowed | src/app/api/image-proxy/route.ts:31-38 | the parsed URL's host is one of the six Steam hosts and its protocol is `http:` or `https:` |
| Navbar.ActiveLinks | src/components/Navbar.tsx:7-20 | at most one link is active, and each link is active exactly when the rule says so |
| Navbar.RootOnlyExact | src/components/Navbar.tsx:20 | the summary link is active only on `/` itself |
| Navbar.SharePrefix | src/components/Navbar.tsx:20 | the share link is active on every path starting with `/share`, including `/shareX` |
| Navbar.OtherPathsInactive | src/components/Navbar.tsx:7-20 | other paths mark no link |
| Navbar.IsActive | src/components/Navbar.tsx:20 | a link is active on its own path, and every link other than `/` also on each path that starts with it |
| Filtering.Filter | src/components/AIReportModal.tsx:50 | `Array.prototype.filter`: the elements that pass the test, in their order; the result is no longer than the input and every element passes |
| Filtering.FilterAppend | src/components/AIReportModal.tsx:50 | filtering distributes over concatenation, so order and repetitions are kept |
| Wrappers.Option.GetOr | src/components/ShareGameCard.tsx:31 | `x ?? default`: the value when present, the default when absent |

## Left out

- The JSON and LZString byte format of share tokens: a foreign library, so it is the `WireCodec` parameter. Its `unpack` returns `None` for an empty decompression and for a parse error.
- A legacy token's fields are read as the stored list. Absent `id` and `createdAt` stand as `""` and 0. A JSON value whose field types are off (a number title, say) is not modelled.
- Tag scores are whole tenths of a point (the slider moves by 0.1). Fractional hours typed into the playtime field, and other floating-point values, are not modelled.
- ShareGameCard.InitialRatings: the `?? 80` fallback is not modelled, because `rating` is a required number and that branch is unreachable in a typed list.
- Constants.GetAttributeColor: the hash is computed on exact integers, with `<<` wrapped to 32 bits. JavaScript keeps it in a double, and the two agree while the hash stays below 2^53 in magnitude, which holds for any string shorter than about four million code units.
- AIReport.Tier1: tier 1 is a set. The order `Array.from` gives it (insertion order) and the order the details queue fetches in are not modelled.
- The prompt text is not modelled: `formatReview`, the tier-1 lines with hours and genres, and the `join`. Only the two caps on what goes in are: the 50 tier-2 entries and the 50-code-unit comment excerpt.
- `useGameDetailsQueue` (fetching the tier-1 details) is not part of this model. The dialog sees it only through the `isFetching` and progress values of `QueueChanged`.
- AIReport.CommentExcerpt: the excerpt is a sequence of UTF-16 code units, not a string, because `slice` may cut a surrogate pair.
- `getModels`: its proxy call, its response parsing and its fallback model list are left out. Only the URL it asks (`ModelsUrl`) is modelled.
- `generateAnalysis`: its request body and headers and the proxy route are left out. Only the endpoint and the reply cleanup are modelled. `JSON.parse` of the cleaned text is not part of this model.
- ShareStore.Patched: a patch whose `name`, `coverUrl` or `rating` is present but `undefined` is not modelled; `{ ...g, ...game }` would write `undefined` there. Each patch field is either absent or a value.
- AIClient.Merged: a patch that sets a required setting to `undefined` is not modelled. Only `baseUrl` may be present and undefined.
- GamesRoute.Respond: a `getServerSession` that throws (also a 500) is not modelled apart from the fetch failures. The JSON form of the responses is left out.
- ImageProxy.Respond: the hostname as the URL parser normalises it is an input, so lower-casing or punycode done by `new URL` is not modelled. The body is a tag (`Upstream`, `Placeholder`, or a message), not bytes.
- ImageProxy.HostMatchIsExact: the model makes no claim about a host typed in another case. `new URL` lower-cases hostnames before the check, so such a URL is accepted.
- AttributeManager.InheritedNames: the set holds the properties of a standard `Object.prototype`. A prototype that other code has extended is not modelled.
- Timers and the 3-second abort of the image fetch are not modelled; they show up only as a fetch that threw. The `User-Agent` header is left out too.
- Rendering, the settings modal's form, `onClose`, CSS, and the export of the summary card to an image are not modelled.
- Concurrency is not modelled: SWR fetching, the persistence of the stores to `localStorage`, and the interleaving of React effects. Each handler runs as one atomic step.
- Sorting.SortInPlace: the sort algorithm the engine uses is not modelled. The array is overwritten with the stable sort of its contents, which the ECMAScript specification requires of `Array.prototype.sort`.
