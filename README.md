# Playback sequencing of the vibes music player

This project models the playback sequencing rules of a small music-player web page, and proves properties of that model in Dafny. The page appears in two revisions, and each has its own module:

- **PlayerJs** models the older revision, `dist/app.js`. It has a `songs` map keyed `0..n-1`, one `indexes` list, and one shuffle order drawn at load.
- **PlayerTs** models the newer revision, `src/app.ts`. It adds artist filtering, keeps track of which list is "playing" (`playingSongTabIndexes`), and has a playlist.

The two revisions share some rules, and each shared rule is defined once in its own module:

- `LoopModes`: the `off → infinite → once` cycle.
- `Shuffle`: the Fisher–Yates `shuffleArray`.
- `IndexLists`: JavaScript's `indexOf`, and array lookup that can run off the end.
- `Sequencing`: the `currentSong.index >= 0` guard and the redraw-once boundary pick of next and previous.
- `TimeDisplay`: the `m:ss` time string.

Only the newer revision has an artist filter. Its rules are in `ArtistFilter`: the artist id and the singer match.

Each revision is modelled at two levels:

- **Pure state functions.** These are `AfterPlaySong`, `AfterNextSong`, `AfterPreviousSong`, `AfterAudioEnd`, `AfterShuffle`, `AfterLoopClick`, and in PlayerTs also `AfterArtistClick`, `AfterHomeClick` and `AfterAddToPlaylist`. Each maps the page's variables before an event to the variables after it. The properties are proved about these functions.
- **A class `Player`.** Its fields are the page's module-level variables. Its methods reassign those fields the way the handlers do, and each method is proved to produce exactly the state its function describes.

How the model represents the source's values and effects:

- **Randomness.** Every `Math.floor(Math.random() * k)` becomes a draw passed in as a parameter, constrained to `[0, k)` (`Shuffle.IsRandomIndex`).
- **The current song's index.** `currentSong.index` has type `number | undefined`, so the model uses `Option<int>`. `Some(-1)` is the state before the first play. `None` is `undefined`, which the sequential moves store when their lookup runs off the list.
- **`playSong`.** It is taken to finish before the next event, and `audio.play()` is taken to resolve. In `src/app.ts`, a `playSong` for a missing position throws at `songsData[index].name` before it assigns anything. So its `.then` continuation does not run and the state is unchanged. `PlayerTs.Player.PlaySong` reports this with its `resolved` result.
- **Track-end modes.** The code is followed: with loop mode `infinite`, the same track replays. No mode wraps from the last track back to the first.

## Model

| member | source | states |
|---|---|---|
| LoopModes.FromCode | src/app.ts:60-64 | The enum value of each code `0..2`: decoding a code, then encoding it, gives the code back. |
| LoopModes.NextLoop | src/app.ts:595-596 | One press of the loop button: `off → infinite → once → off`. The result always differs from the mode before the press. |
| LoopModes.ThreePressesRestore | src/app.ts:595-596 | Three presses bring back the starting mode, and two never do. |
| IndexLists.IndexOf | src/app.ts:521-523 | JavaScript `indexOf`. It returns -1 exactly when the value is absent. Otherwise it returns the first position holding the value. |
| IndexLists.Range | src/app.ts:174-179 | The index list `[0, 1, …, n-1]`: its length is n, and entry i is i. |
| IndexLists.IndexOfDistinct | src/app.ts:534-535 | In a list without repeats, `indexOf` of the entry at position p is p. |
| IndexLists.IndexOfRange | dist/app.js:320 | In `[0..n-1]`, `indexOf(i)` is i. |
| IndexLists.DistinctBelowIsShort | src/app.ts:525 | A list without repeats whose entries are all below n has at most n entries. |
| IndexLists.PermutationKeepsIndexList | src/app.ts:630-637 | Rearranging a list keeps it free of repeats and keeps every entry below the bound. |
| Shuffle.ShuffleArray | src/app.ts:630-637 | The loop that counts down over a copy of the argument and swaps `array[i]` with `array[j]`, where `0 <= j <= i`. The result is exactly `Shuffled(argument, draws)`, has the same length, and is a permutation of the argument. The argument itself is a value and stays unchanged. |
| Shuffle.SwapPermutes | src/app.ts:634 | One swap keeps the length and the multiset of the list. |
| Shuffle.SwapsFromPermutes | dist/app.js:367-370 | Each run of the swap loop, from any start position, is a permutation of its input. |
| Shuffle.ShuffledIsPermutation | dist/app.js:365-372 | `shuffleArray` gives a permutation of its argument for every sequence of draws. |
| Shuffle.ShuffledKeepsIndexList | src/app.ts:258 | Shuffling a list of song positions that has no repeats gives a list of song positions that has no repeats. |
| Shuffle.ShuffledRangeNamesEverySong | dist/app.js:92 | `shuffleArray(indexes)` over `0..n-1` has length n, has no repeats, and contains every position of the catalog. |
| TimeDisplay.NatToString | dist/app.js:214 | JavaScript's canonical decimal text of a number. It has at least one digit and only digits. It has exactly one digit when the number is below 10. It starts with `0` only for the number 0, so there is never a leading zero. |
| TimeDisplay.ParseNatToString | dist/app.js:214 | Reading the decimal text back gives the number. |
| TimeDisplay.SecondsFieldIsTwoDigits | dist/app.js:216-219 | The seconds field is always two digits, and its value is `t mod 60`, which is at most 59. |
| TimeDisplay.ClockRoundTrip | dist/app.js:207-220 | For whole seconds t, the string `(t div 60) + ":" + ss` can be read back to t. |
| TimeDisplay.ClockInjective | src/app.ts:419-436 | Two different whole-second times never show the same `m:ss` string. |
| ArtistFilter.ToLower | src/app.ts:190 | `toLowerCase` on ASCII letters, applied to each character. It is also used for the artist id at src/app.ts:266. |
| ArtistFilter.ReplaceFirst | src/app.ts:266 | `replace` with a one-character pattern. The first occurrence is replaced and the length is kept. A string without the character is returned unchanged. |
| ArtistFilter.ArtistIdRoundTrip | src/app.ts:266 | For an artist name without `-`, the id built for its card (first space → `-`) decodes back to the lower-cased name (first `-` → space, src/app.ts:189). |
| ArtistFilter.ArtistFindsOwnSongs | src/app.ts:186-195 | Clicking the card of an artist whose name has no `-` keeps every song whose singer is exactly that name. The filter can also keep other songs, because `includes` matches any singer that contains the name. |
| ArtistFilter.HyphenatedArtistMissesOwnSongs | src/app.ts:266 | For a one-word artist name that contains `-`, the decoded id no longer matches the artist's own singer field. |
| PlayerJs.FetchSongs | dist/app.js:48-60 | `songs` has exactly the keys `0..n-1`, key k holds manifest entry k, and `indexes` is exactly `[0, …, n-1]`. |
| PlayerJs.LoadedSize | dist/app.js:58-59 | After load, `songs.size` equals the length of `indexes`. |
| PlayerJs.ManifestCatalogIsLoaded | dist/app.js:92 | Load always leaves a catalog in which `shuffleIndexes` is a repeat-free ordering of the keys. |
| PlayerJs.NoMoveBeforeFirstPlay | dist/app.js:300-301 | Next and previous change nothing while `currentSong.index < 0` or while it is `undefined`. |
| PlayerJs.PlayMissingKeyIsIgnored | dist/app.js:171-174 | `playSong` with an index that has no entry in `songs` returns early and leaves the record and the buttons as they were. |
| PlayerJs.PlayKeepsConsistent | dist/app.js:175-183 | `playSong` keeps the record either initial, `undefined`, or carrying the fields of the key it names. |
| PlayerJs.NextKeepsConsistent | dist/app.js:300-325 | Next preserves that consistency. |
| PlayerJs.PreviousKeepsConsistent | dist/app.js:326-348 | Previous preserves that consistency, including the `undefined` written at index 0. |
| PlayerJs.HandlersKeepConsistent | dist/app.js:287-299 | Track end, the shuffle toggle and the loop button preserve that consistency. |
| PlayerJs.SequentialNext | dist/app.js:318-323 | Outside shuffle mode, next moves from i to song i+1 while `i < songs.size - 1` and sets both buttons accordingly. At the last song it changes nothing. There is no wrap-around. |
| PlayerJs.SequentialPrevious | dist/app.js:341-346 | Previous moves from i to song i-1 for `i >= 1`. At index 0, `indexes[-1]` is `undefined`: that is stored as the index, and `playSong` then ignores it. |
| PlayerJs.SequentialNextThenPrevious | dist/app.js:318-346 | For `0 <= i < size-1`, next then previous comes back to song i. |
| PlayerJs.BoundaryButtons | dist/app.js:140-154 | Outside shuffle mode, previous is disabled exactly when the index is 0 and next exactly when it is `songs.size - 1`. These are exactly the positions where next does nothing and where previous loses the index. |
| PlayerJs.ShuffleSteps | dist/app.js:302-317 | In shuffle mode, next and previous take the neighbour of the current index in `shuffleIndexes`. At the last entry (for next) or the first entry (for previous), they use the boundary draw, redrawn once if it equals the current index. |
| PlayerJs.ShuffleNextThenPrevious | dist/app.js:302-340 | Because `shuffleIndexes` has no repeats, next then previous returns to the start unless next hit the last entry. |
| PlayerJs.ShuffleAlwaysNamesASong | dist/app.js:302-317 | After load, both the neighbour lookups and the boundary draw in `[0, n)` always name a key of `songs`, so a shuffle move always loads a song. |
| PlayerJs.AudioEndDispatch | dist/app.js:287-299 | Track end: `infinite` replays the same song and keeps the mode. `once` replays it and drops to `off`. `off`, with shuffle off, at the last song changes nothing. Every other case is exactly next. |
| PlayerJs.Player.Load | dist/app.js:43-60 | Load fills `songs` and `indexes` from the manifest and draws `shuffleIndexes = shuffleArray(indexes)` (dist/app.js:92). The result is a loaded catalog and the initial variables. |
| PlayerJs.Player.PlaySong | dist/app.js:171-183 | The new variables are exactly `AfterPlaySong` of the old ones. |
| PlayerJs.Player.NextSong | dist/app.js:300-325 | The new variables are exactly `AfterNextSong` of the old ones. |
| PlayerJs.Player.PreviousSong | dist/app.js:326-348 | The new variables are exactly `AfterPreviousSong` of the old ones. |
| PlayerJs.Player.HandleAudioEnd | dist/app.js:287-299 | The new variables are exactly `AfterAudioEnd` of the old ones. |
| PlayerJs.Player.HandleShuffle | dist/app.js:349-356 | It flips `shuffle`, enables both buttons, and changes nothing else. |
| PlayerJs.Player.HandleLoopClick | dist/app.js:429-432 | `loop := (loop + 1) % 3`, that is, `NextLoop`. |
| PlayerTs.MatchingIsFilter | src/app.ts:186-195 | The filtered list holds exactly the positions whose lower-cased singer contains the decoded id. They are in increasing order, without repeats, and within the catalog. |
| PlayerTs.AddIfAbsent | src/app.ts:642-644 | Insert-if-absent: the key is added, existing entries are never overwritten, a new key gets the entry, and the map grows by at most one. |
| PlayerTs.NoMoveBeforeFirstPlay | src/app.ts:517-518 | Next and previous change nothing while `currentSong.index < 0` (src/app.ts:554-555), or while it is `undefined`. |
| PlayerTs.PlaySongTracksTab | src/app.ts:280-302 | A successful `playSong` loads that song and makes the list on screen the playing list. A missing song changes nothing. |
| PlayerTs.NextKeepsPlayingTab | src/app.ts:517-552 | `nextSong` never changes the playing list or the list on screen: its continuation puts back the list that `playSong` replaced. |
| PlayerTs.SequentialNext | src/app.ts:540-549 | Next acts only while `index < songs.length - 1`, and then moves to the successor in `playingSongTabIndexes`. In a filtered list the lookup can run off the end, and the index becomes `undefined`. There is no wrap-around. |
| PlayerTs.SequentialPrevious | src/app.ts:574-580 | Previous moves to the predecessor and leaves the list on screen as the playing list. At the head of the list, or when the index is missing from it, the index becomes `undefined`. |
| PlayerTs.SequentialNextThenPrevious | src/app.ts:540-580 | Let the playing list have no repeats, and let the current song sit at position p with `p < length - 1` and song index `< songs.length - 1`. Then next followed by previous returns to that song. If either condition fails, the result can be `undefined` instead (see SequentialNext and FilteredNextLosesIndex). |
| PlayerTs.ShuffleSteps | src/app.ts:520-539 | Start from the song at position p of a repeat-free `shuffleIndexes`. Shuffle next and previous then take the entry after or before p (src/app.ts:557-573), or the boundary draw at the ends. The playing list is restored afterwards. ShuffleFromAbsentIndex covers a current song that is not in the list. |
| PlayerTs.ShuffleNextThenPrevious | src/app.ts:520-573 | Start from the song at position p < length - 1 of a repeat-free `shuffleIndexes`. Then next followed by previous returns to that song. |
| PlayerTs.ShuffleFromAbsentIndex | src/app.ts:519-573 | A current song missing from `shuffleIndexes` can happen: it was played from another list, and then the order was redrawn. `indexOf` then gives -1. Next plays `shuffleIndexes[0]` (src/app.ts:534-535) and keeps the playing list. Previous reads the `undefined` at `shuffleIndexes[-2]` (src/app.ts:568-569), its `playSong` throws, and nothing changes. |
| PlayerTs.BoundaryDrawNamesASong | src/app.ts:525-529 | The boundary draw is a number in `[0, shuffleIndexes.length)`, used directly as a song position. In a well-formed state after the first play, it always names a song, even when the list is empty and the draw is 0. |
| PlayerTs.BoundaryFlags | src/app.ts:329-343 | Outside shuffle mode, for any playing list, previous is disabled exactly at index 0 and next exactly at `songs.length - 1`. |
| PlayerTs.BoundaryButtons | src/app.ts:329-343 | Outside shuffle mode, previous is disabled exactly at index 0 and next exactly at `songs.length - 1`. On the full list these are the places where next does nothing and where previous loses the index. |
| PlayerTs.AudioEndDispatch | src/app.ts:401-417 | `infinite` replays the same index and keeps the mode. `once` replays it and sets `off`. Neither replay has a `.then` restore, so in both cases the list on screen becomes the playing list. `off`, with shuffle off, at the last catalog index changes nothing. Every other case is exactly next. |
| PlayerTs.ArtistClickBookkeeping | src/app.ts:122-134 | Once a song has been played, the playing list becomes the list that was on screen. The matching songs go on screen in order, the shuffle order is redrawn as a permutation of the playing list, and the playing song is untouched. |
| PlayerTs.HomeClickBookkeeping | src/app.ts:136-143 | The same bookkeeping, with every song going back on screen. |
| PlayerTs.PlayKeepsWellFormed | src/app.ts:280-302 | `playSong` keeps the three lists repeat-free and within the catalog, and keeps the record consistent with the song it names. |
| PlayerTs.NextKeepsWellFormed | src/app.ts:517-552 | Next preserves that well-formedness. |
| PlayerTs.PreviousKeepsWellFormed | src/app.ts:554-584 | Previous preserves that well-formedness. |
| PlayerTs.AudioEndKeepsWellFormed | src/app.ts:401-417 | Track end preserves that well-formedness. |
| PlayerTs.ArtistClickKeepsWellFormed | src/app.ts:122-134 | An artist click preserves that well-formedness. |
| PlayerTs.HomeClickKeepsWellFormed | src/app.ts:136-143 | A home click preserves that well-formedness. |
| PlayerTs.FlagHandlersKeepWellFormed | src/app.ts:586-596 | The shuffle toggle, the loop button and the playlist insert preserve that well-formedness. |
| PlayerTs.AddToPlaylistIdempotent | src/app.ts:639-647 | A second identical insert changes nothing, and an existing entry is never overwritten. |
| PlayerTs.FilteredNextLosesIndex | src/app.ts:541-545 | With two songs and only the first on the playing list, sequential next leaves the index `undefined`, because the bound checks `songs.length` and not the playing list. |
| PlayerTs.Player.Load | src/app.ts:98-105 | After `fetchSongs` (src/app.ts:170-180), both lists are `totalIndexes = [0..n-1]`, the shuffle order is `shuffleArray` of the playing list, and the state is well formed. |
| PlayerTs.Player.FilterSongs | src/app.ts:186-195 | The loop builds exactly `Matching(songsData, artist)`. |
| PlayerTs.Player.DisplaySongs | src/app.ts:258 | `shuffleIndexes := shuffleArray(playingSongTabIndexes)`. |
| PlayerTs.Player.ArtistClick | src/app.ts:122-134 | The new variables are exactly `AfterArtistClick` of the old ones. |
| PlayerTs.Player.HomeClick | src/app.ts:136-143 | The new variables are exactly `AfterHomeClick` of the old ones. |
| PlayerTs.Player.PlaySong | src/app.ts:280-307 | The new variables are exactly `AfterPlaySong` of the old ones, and `resolved` is true exactly when the position names a song. |
| PlayerTs.Player.NextSong | src/app.ts:517-552 | The new variables are exactly `AfterNextSong` of the old ones. |
| PlayerTs.Player.PreviousSong | src/app.ts:554-584 | The new variables are exactly `AfterPreviousSong` of the old ones. |
| PlayerTs.Player.HandleAudioEnd | src/app.ts:401-417 | The new variables are exactly `AfterAudioEnd` of the old ones. |
| PlayerTs.Player.HandleShuffle | src/app.ts:586-593 | It flips `shuffle`, enables both buttons, and changes nothing else. |
| PlayerTs.Player.HandleLoop | src/app.ts:595-596 | `loop := (loop + 1) % 3`, that is, `NextLoop`. |
| PlayerTs.Player.HandleAddToPlaylist | src/app.ts:639-647 | The playlist becomes `AddIfAbsent` under the key `name-singer`, and nothing else changes. |
| LoopModes.Code | src/app.ts:60-64 | Definition, no contract of its own beyond `c < 3`: the numeric value of each `LoopOptions` member. |
| IndexLists.At | src/app.ts:534-536 | Definition, no contract: an array read `s[k]`, which is `undefined` outside `0..length-1`. |
| Shuffle.IsRandomIndex | dist/app.js:307 | Definition, no contract: a possible value of `Math.floor(Math.random() * n)`. It lies in `[0, n)`, and it is 0 when n is 0. |
| Shuffle.ValidDraws | src/app.ts:633 | Definition, no contract: the draws `j` of the swap loop, each with `0 <= j <= i`. |
| Shuffle.Shuffled | dist/app.js:365-372 | Definition, no contract: the result of `shuffleArray` for a given sequence of draws, as the swaps from the last position down to 1. |
| TimeDisplay.SecondsField | dist/app.js:216-219 | Definition, no contract: `Math.floor(t % 60)` with a `0` in front when it is below 10. |
| TimeDisplay.Clock | dist/app.js:215-220 | Definition, no contract: the text `${minutes}:${seconds}` for whole seconds t. |
| ArtistFilter.ArtistId | src/app.ts:266 | Definition, no contract: the card id, which is the lower-cased name with its first space replaced by `-`. |
| ArtistFilter.SearchString | src/app.ts:189 | Definition, no contract: the id with its first `-` replaced by a space. |
| ArtistFilter.Includes | src/app.ts:190 | Definition, no contract: `String.prototype.includes`, meaning the part occurs at some position. |
| ArtistFilter.IsSinger | src/app.ts:189-190 | Definition, no contract: whether the lower-cased singer includes the search string of the id. |
| Sequencing.RandomPick | dist/app.js:307-311 | Definition, no contract: the first draw, redrawn once when it equals the current index. Both revisions use it, at dist/app.js:330-334 and at src/app.ts:525-529 and 559-563. |
| Sequencing.Started | src/app.ts:517-518 | Definition, no contract: `currentSong.index >= 0`, which is false for `undefined`. It is also the guard at dist/app.js:301 and 327. |
| PlayerJs.AfterPlaySong | dist/app.js:171-183 | Definition, no contract: `playSong`. It returns early on a missing key. Otherwise it sets the record and, outside shuffle mode, the two button flags (dist/app.js:140-154). |
| PlayerJs.AfterNextSong | dist/app.js:300-325 | Definition, no contract: `nextSong`, both the shuffle branch and the sequential branch. |
| PlayerJs.AfterPreviousSong | dist/app.js:326-348 | Definition, no contract: `previousSong`, both the shuffle branch and the sequential branch. |
| PlayerJs.AfterAudioEnd | dist/app.js:287-299 | Definition, no contract: `handleAudioEnd`. |
| PlayerJs.AfterShuffle | dist/app.js:349-356 | Definition, no contract: `handleShuffle`. |
| PlayerJs.AfterLoopClick | dist/app.js:429-432 | Definition, no contract: the loop button's handler. |
| PlayerTs.Matching | src/app.ts:186-195 | Definition, no contract: the positions `filterSongs` pushes, taken over the first n songs. |
| PlayerTs.AfterPlaySong | src/app.ts:280-302 | Definition, no contract: `playSong`. It does nothing when `songsData[index]` is missing. Otherwise it sets the record and, outside shuffle mode, the button flags, and then sets `playingSongTabIndexes = filteredIndexes`. |
| PlayerTs.PlayThenRestore | src/app.ts:530-548 | Definition, no contract: `playSong(index).then(() => playingSongTabIndexes = researvedIndexes)`. |
| PlayerTs.AfterNextSong | src/app.ts:517-552 | Definition, no contract: `nextSong`. |
| PlayerTs.AfterPreviousSong | src/app.ts:554-584 | Definition, no contract: `previousSong`. The sequential branch has no restore. |
| PlayerTs.AfterAudioEnd | src/app.ts:401-417 | Definition, no contract: `handleAudioEnd`. |
| PlayerTs.AfterShuffle | src/app.ts:586-593 | Definition, no contract: `handleShuffle`. |
| PlayerTs.AfterLoopClick | src/app.ts:595-596 | Definition, no contract: `handleLoop`. |
| PlayerTs.TabAfterClick | src/app.ts:126-128 | Definition, no contract: the playing list after the `currentSong.index >= 0` check of a click handler (also src/app.ts:138-140). |
| PlayerTs.AfterArtistClick | src/app.ts:122-134 | Definition, no contract: the artist card handler, with `filterSongs` followed by `displaySongs`. |
| PlayerTs.AfterHomeClick | src/app.ts:136-143 | Definition, no contract: the home button handler. |
| PlayerTs.SongIdentifier | src/app.ts:640 | Definition, no contract: the playlist key `${name}-${singer}`. |
| PlayerTs.AfterAddToPlaylist | src/app.ts:639-647 | Definition, no contract: `handleAddToPlaylist`. |

## Left out

- **DOM rendering and event wiring.** This covers `innerHTML` templates, class toggles other than the two disabled-button flags, and listener registration. The `renderLoopIcon` markup and the play/pause icons are part of it. It is presentation only.
- **The audio element.** Load, play, pause, `currentTime`, `volume` and `muted` are not modelled. Only the index a handler resolves to is kept. The rejection path of `audio.play()` is not modelled either: `playSong` is taken to succeed whenever its song exists.
- **Asynchrony.** Each `playSong` is taken to finish, with its `.then` continuation, before the next event.
- **I/O.** This covers `fetch` and `response.json()`, `localStorage`, the JSON in `handleLoad` and `handleUnload`, and the restore of a stored index at start-up with `playSong(index, false)` (dist/app.js:440-456). The manifest is a parameter of `Load`. The src playlist is taken to start empty.
- **Sort order in `fetchSongs`.** The `localeCompare` sort (dist/app.js:49) is a locale collation, so the manifest order is taken as given.
- **Floating-point logic.** This covers the seekbar and volume-bar geometry, the keyboard volume steps of 0.2, the mute toggle, and the fractional part of the time display. `TimeDisplay` works on whole seconds.
- **The distribution of `Math.random`.** The draws are parameters, and the model makes no claim about their distribution.
- **Case mapping beyond ASCII.** `toLowerCase` is modelled as ASCII lower-casing only.
- **The theme toggle and `tailwind.config.js`.** They are styling only.
- **The src audio objects.** `fetchSongs` in src/app.ts also fills `songs` with one audio object per song. That list is not modelled. `songs.length` is read as `songsData.length`.
- **Initial button state.** The buttons' initial disabled flags come from the page's HTML, which is not part of this model. They are taken as enabled.
- **Input paths that skip the buttons.** The keyboard arrows and the media-session actions call `nextSong` and `previousSong` directly, even when the button is disabled. The model's handlers take no button state as input, so they cover those paths too.
- PlayerTs.Player.HandleAddToPlaylist: the map stores a copy of `currentSong`, not the object itself. In the source, a later sequential next or previous writes `currentSong.index` through that shared object, and so also changes the stored entry. The model does not capture that aliasing.
- PlayerTs.Player.NextSong: the source calls `playSong` in each of its three branches. The method first computes the target position and then makes one call. The resulting state is the same.
