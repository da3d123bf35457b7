/** The playback sequencing of the newer revision (src/app.ts). Beside the
    rules of the older one it keeps three index lists: `filteredIndexes`
    (the songs the page currently shows), `playingSongTabIndexes` (the list
    the playing song was started from, which next and previous walk) and
    `shuffleIndexes` (a shuffle of the playing list, redrawn whenever the
    song list is redisplayed); and a playlist keyed by `name-singer`.
    `playSong` is taken to complete, successfully, before the next event. */
module PlayerTs {
  import opened Wrappers
  import opened IndexLists
  import opened LoopModes
  import opened Shuffle
  import opened Sequencing
  import opened ArtistFilter

  /** One entry of `songsData`. */
  datatype Song = Song(name: string, singer: string, image: string, url: string)

  /** The `currentSong` object: `index` is `Some(-1)` before the first play
      and `None` once `undefined` has been written into it. */
  datatype CurrentSong = CurrentSong(name: string, singer: string, image: string, index: Option<int>)

  const Unplayed := CurrentSong("", "", "", Some(-1))

  datatype State = State(
    current: CurrentSong,
    shuffle: bool,
    loop: LoopMode,
    filtered: seq<int>,
    playing: seq<int>,
    shuffleIndexes: seq<int>,
    previousDisabled: bool,
    nextDisabled: bool,
    playlist: map<string, CurrentSong>)

  /** Whether `songsData[index]` exists; when it does not, reading `.name`
      from it throws inside `playSong` before anything is assigned. */
  predicate IsSong(data: seq<Song>, index: Option<int>)
  {
    index.Some? && 0 <= index.value < |data|
  }

  /** The lists hold positions of `data` without repeats, and the record is
      the initial one, `undefined`, or the fields of the song it names. */
  ghost predicate WellFormed(data: seq<Song>, s: State)
  {
    var n := |data|;
    && Distinct(s.filtered) && AllBelow(s.filtered, n)
    && Distinct(s.playing) && AllBelow(s.playing, n)
    && Distinct(s.shuffleIndexes) && AllBelow(s.shuffleIndexes, n)
    && (|| s.current == Unplayed
        || s.current.index == None
        || (IsSong(data, s.current.index)
            && var song := data[s.current.index.value];
            s.current == CurrentSong(song.name, song.singer, song.image, s.current.index)))
  }

  // ---------------------------------------------------------------------
  // filterSongs

  /** The positions among the first `n` songs whose lower-cased singer
      contains the search string of `artistId`, in catalog order. */
  function Matching(data: seq<Song>, artistId: string, n: nat): seq<int>
    requires n <= |data|
  {
    if n == 0 then []
    else Matching(data, artistId, n - 1) + (if IsSinger(data[n - 1].singer, artistId) then [n - 1] else [])
  }

  predicate Increasing(s: seq<int>)
  {
    forall i, j :: 0 <= i < j < |s| ==> s[i] < s[j]
  }

  /** `filterSongs` keeps exactly the matching singers' positions, in
      increasing order. */
  lemma {:induction false} MatchingIsFilter(data: seq<Song>, artistId: string, n: nat)
    requires n <= |data|
    ensures forall k :: k in Matching(data, artistId, n) <==> 0 <= k < n && IsSinger(data[k].singer, artistId)
    ensures Increasing(Matching(data, artistId, n))
    ensures Distinct(Matching(data, artistId, n)) && AllBelow(Matching(data, artistId, n), n)
  {
    if n > 0 {
      MatchingIsFilter(data, artistId, n - 1);
    }
  }

  // ---------------------------------------------------------------------
  // The handlers, as functions of the state

  /** `playSong(index)`: replaces `currentSong`, sets the boundary buttons
      outside shuffle mode, and finally `playingSongTabIndexes =
      filteredIndexes`. When `songsData[index]` is missing nothing is
      assigned. */
  function AfterPlaySong(data: seq<Song>, s: State, index: Option<int>): State
  {
    if IsSong(data, index) then
      var i := index.value;
      var song := data[i];
      s.(current := CurrentSong(song.name, song.singer, song.image, index),
         previousDisabled := if s.shuffle then s.previousDisabled else i == 0,
         nextDisabled := if s.shuffle then s.nextDisabled else i == |data| - 1,
         playing := s.filtered)
    else s
  }

  /** `playSong(index).then(() => { playingSongTabIndexes = researvedIndexes })`:
      the continuation runs only when `playSong` did not throw. */
  function PlayThenRestore(data: seq<Song>, s: State, index: Option<int>, reserved: seq<int>): State
  {
    var r := AfterPlaySong(data, s, index);
    if IsSong(data, index) then r.(playing := reserved) else r
  }

  function AfterNextSong(data: seq<Song>, s: State, d1: int, d2: int): State
  {
    if !Started(s.current.index) then s
    else
      var i := s.current.index.value;
      var reserved := s.playing;
      if s.shuffle then
        var pos := IndexOf(s.shuffleIndexes, i);
        var target := if pos == |s.shuffleIndexes| - 1 then Some(RandomPick(d1, d2, i))
                      else At(s.shuffleIndexes, pos + 1);
        PlayThenRestore(data, s, target, reserved)
      else if i < |data| - 1 then
        var target := At(s.playing, IndexOf(s.playing, i) + 1);
        PlayThenRestore(data, s.(current := s.current.(index := target)), target, reserved)
      else s
  }

  function AfterPreviousSong(data: seq<Song>, s: State, d1: int, d2: int): State
  {
    if !Started(s.current.index) then s
    else
      var i := s.current.index.value;
      var reserved := s.playing;
      if s.shuffle then
        var pos := IndexOf(s.shuffleIndexes, i);
        var target := if pos == 0 then Some(RandomPick(d1, d2, i)) else At(s.shuffleIndexes, pos - 1);
        PlayThenRestore(data, s, target, reserved)
      else
        // `.then(() => {})`: no restore on this path
        var target := At(s.playing, IndexOf(s.playing, i) - 1);
        AfterPlaySong(data, s.(current := s.current.(index := target)), target)
  }

  function AfterAudioEnd(data: seq<Song>, s: State, d1: int, d2: int): State
  {
    match s.loop
    case Infinite => AfterPlaySong(data, s, s.current.index)
    case Once => AfterPlaySong(data, s.(loop := Off), s.current.index)
    case Off =>
      if !s.shuffle && s.current.index == Some(|data| - 1) then s
      else AfterNextSong(data, s, d1, d2)
  }

  function AfterShuffle(s: State): State
  {
    s.(shuffle := !s.shuffle, previousDisabled := false, nextDisabled := false)
  }

  /** `handleLoop`. */
  function AfterLoopClick(s: State): State
  {
    s.(loop := NextLoop(s.loop))
  }

  /** The list `displaySongs` reshuffles after an artist or home click: the
      list that was on screen when a song has been played, otherwise the
      playing list as it was. */
  function TabAfterClick(s: State): seq<int>
  {
    if Started(s.current.index) then s.filtered else s.playing
  }

  /** The artist card's click handler, with `displaySongs` redrawing the
      shuffle order. */
  function AfterArtistClick(data: seq<Song>, s: State, artistId: string, js: seq<int>): State
    requires ValidDraws(js, |TabAfterClick(s)|)
  {
    var playing := TabAfterClick(s);
    s.(playing := playing, filtered := Matching(data, artistId, |data|),
       shuffleIndexes := Shuffled(playing, js))
  }

  /** The home button's click handler. */
  function AfterHomeClick(data: seq<Song>, s: State, js: seq<int>): State
    requires ValidDraws(js, |TabAfterClick(s)|)
  {
    var playing := TabAfterClick(s);
    s.(playing := playing, filtered := Range(|data|), shuffleIndexes := Shuffled(playing, js))
  }

  /** The playlist key of a song. */
  function SongIdentifier(c: CurrentSong): string
  {
    c.name + "-" + c.singer
  }

  /** `if (!userPlaylist.has(key)) userPlaylist.set(key, entry)`. */
  function AddIfAbsent(playlist: map<string, CurrentSong>, key: string, entry: CurrentSong): (r: map<string, CurrentSong>)
    ensures r.Keys == playlist.Keys + {key}
    ensures forall k :: k in playlist ==> r[k] == playlist[k]
    ensures key !in playlist ==> r[key] == entry
    ensures |r| <= |playlist| + 1
  {
    if key in playlist then playlist else playlist[key := entry]
  }

  /** `handleAddToPlaylist`. */
  function AfterAddToPlaylist(s: State): State
  {
    s.(playlist := AddIfAbsent(s.playlist, SongIdentifier(s.current), s.current))
  }

  // ---------------------------------------------------------------------
  // Properties of the rules

  /** Next and previous do nothing while `currentSong.index < 0` (or is
      `undefined`). */
  lemma NoMoveBeforeFirstPlay(data: seq<Song>, s: State, d1: int, d2: int)
    requires !Started(s.current.index)
    ensures AfterNextSong(data, s, d1, d2) == s
    ensures AfterPreviousSong(data, s, d1, d2) == s
  {
  }

  /** A successful `playSong` loads the song and makes the list on screen
      the playing list; a missing song changes nothing. */
  lemma PlaySongTracksTab(data: seq<Song>, s: State, index: Option<int>)
    ensures var r := AfterPlaySong(data, s, index);
      if IsSong(data, index) then
        && r.current.index == index
        && r.current.name == data[index.value].name && r.current.singer == data[index.value].singer
        && r.playing == s.filtered && r.filtered == s.filtered
        && r.shuffleIndexes == s.shuffleIndexes && r.loop == s.loop
      else r == s
  {
  }

  /** `nextSong` never changes the playing list: `playSong` replaces it with
      the list on screen and the continuation puts the reserved one back. */
  lemma NextKeepsPlayingTab(data: seq<Song>, s: State, d1: int, d2: int)
    ensures AfterNextSong(data, s, d1, d2).playing == s.playing
    ensures AfterNextSong(data, s, d1, d2).filtered == s.filtered
  {
  }

  /** Sequential next acts only while `index < songs.length - 1`, and then
      moves to the successor of `index` in the playing list; when `index`
      is the last entry of a filtered list, the lookup runs off the end and
      the index becomes `undefined`. There is no wrap-around. */
  lemma SequentialNext(data: seq<Song>, s: State, i: int, d1: int, d2: int)
    requires !s.shuffle && AllBelow(s.playing, |data|)
    requires s.current.index == Some(i) && 0 <= i
    ensures var r := AfterNextSong(data, s, d1, d2);
      var p := IndexOf(s.playing, i);
      && (i >= |data| - 1 ==> r == s)
      && (i < |data| - 1 && p + 1 < |s.playing| ==>
            r.current.index == Some(s.playing[p + 1]) && r.playing == s.playing
            && r.current.name == data[s.playing[p + 1]].name)
      && (i < |data| - 1 && p + 1 >= |s.playing| ==>
            r == s.(current := s.current.(index := None)))
  {
  }

  /** Sequential previous moves to the predecessor in the playing list and
      leaves the list on screen as the playing list; at the head of the
      list, or when `index` is not in it, the index becomes `undefined`. */
  lemma SequentialPrevious(data: seq<Song>, s: State, i: int, d1: int, d2: int)
    requires !s.shuffle && AllBelow(s.playing, |data|)
    requires s.current.index == Some(i) && 0 <= i
    ensures var r := AfterPreviousSong(data, s, d1, d2);
      var p := IndexOf(s.playing, i);
      && (p >= 1 ==>
            r.current.index == Some(s.playing[p - 1]) && r.playing == s.filtered
            && r.current.name == data[s.playing[p - 1]].name)
      && (p <= 0 ==> r == s.(current := s.current.(index := None)))
  {
  }

  /** In a duplicate-free playing list, sequential next then previous
      returns to the start wherever next moved. */
  lemma SequentialNextThenPrevious(data: seq<Song>, s: State, p: int, d1: int, d2: int, e1: int, e2: int)
    requires !s.shuffle && Distinct(s.playing) && AllBelow(s.playing, |data|)
    requires 0 <= p < |s.playing| - 1 && s.current.index == Some(s.playing[p])
    requires s.playing[p] < |data| - 1
    ensures AfterPreviousSong(data, AfterNextSong(data, s, d1, d2), e1, e2).current.index
            == Some(s.playing[p])
  {
    var i := s.playing[p];
    IndexOfDistinct(s.playing, p);
    SequentialNext(data, s, i, d1, d2);
    var t := AfterNextSong(data, s, d1, d2);
    IndexOfDistinct(s.playing, p + 1);
    SequentialPrevious(data, t, s.playing[p + 1], e1, e2);
  }

  /** Shuffle mode steps through `shuffleIndexes`: the entry after (before)
      the current one, and the boundary draw at the last (first) entry. The
      playing list is restored afterwards. */
  lemma ShuffleSteps(data: seq<Song>, s: State, p: int, d1: int, d2: int)
    requires s.shuffle && Distinct(s.shuffleIndexes) && AllBelow(s.shuffleIndexes, |data|)
    requires 0 <= p < |s.shuffleIndexes| && s.current.index == Some(s.shuffleIndexes[p])
    ensures var i := s.shuffleIndexes[p];
      var next := AfterNextSong(data, s, d1, d2);
      var previous := AfterPreviousSong(data, s, d1, d2);
      && next.playing == s.playing && previous.playing == s.playing
      && (p < |s.shuffleIndexes| - 1 ==> next.current.index == Some(s.shuffleIndexes[p + 1]))
      && (p == |s.shuffleIndexes| - 1 && IsSong(data, Some(RandomPick(d1, d2, i))) ==>
            next.current.index == Some(RandomPick(d1, d2, i)))
      && (p > 0 ==> previous.current.index == Some(s.shuffleIndexes[p - 1]))
      && (p == 0 && IsSong(data, Some(RandomPick(d1, d2, i))) ==>
            previous.current.index == Some(RandomPick(d1, d2, i)))
  {
    IndexOfDistinct(s.shuffleIndexes, p);
  }

  /** With no duplicates in `shuffleIndexes`, next then previous returns to
      the start unless next hit the last entry. */
  lemma ShuffleNextThenPrevious(data: seq<Song>, s: State, p: int, d1: int, d2: int, e1: int, e2: int)
    requires s.shuffle && Distinct(s.shuffleIndexes) && AllBelow(s.shuffleIndexes, |data|)
    requires 0 <= p < |s.shuffleIndexes| - 1 && s.current.index == Some(s.shuffleIndexes[p])
    ensures AfterPreviousSong(data, AfterNextSong(data, s, d1, d2), e1, e2).current.index
            == Some(s.shuffleIndexes[p])
  {
    ShuffleSteps(data, s, p, d1, d2);
    ShuffleSteps(data, AfterNextSong(data, s, d1, d2), p + 1, e1, e2);
  }

  /** A current song that is not in `shuffleIndexes` (it was played from a
      list other than the one the order was drawn from) gives `indexOf = -1`:
      shuffle next then plays the first entry of the order, and shuffle
      previous reads `shuffleIndexes[-2]`, which is `undefined`, so nothing
      changes. */
  lemma ShuffleFromAbsentIndex(data: seq<Song>, s: State, d1: int, d2: int)
    requires s.shuffle && Started(s.current.index)
    requires s.current.index.value !in s.shuffleIndexes
    requires |s.shuffleIndexes| > 0 && AllBelow(s.shuffleIndexes, |data|)
    ensures var r := AfterNextSong(data, s, d1, d2);
      && r.current.index == Some(s.shuffleIndexes[0])
      && r.current.name == data[s.shuffleIndexes[0]].name
      && r.playing == s.playing
    ensures AfterPreviousSong(data, s, d1, d2) == s
  {
  }

  /** The boundary draw is a number in `[0, shuffleIndexes.length)`, used
      directly as a song index. It always names a song, because
      `shuffleIndexes` is a duplicate-free list of song positions and so is
      no longer than the catalog. */
  lemma BoundaryDrawNamesASong(data: seq<Song>, s: State, d1: int, d2: int)
    requires WellFormed(data, s) && s.shuffle && Started(s.current.index)
    requires IsRandomIndex(d1, |s.shuffleIndexes|) && IsRandomIndex(d2, |s.shuffleIndexes|)
    requires IndexOf(s.shuffleIndexes, s.current.index.value) == |s.shuffleIndexes| - 1
    ensures var pick := RandomPick(d1, d2, s.current.index.value);
      && 0 <= pick
      && (|s.shuffleIndexes| > 0 ==> pick < |s.shuffleIndexes|)
      && (IsSong(data, Some(pick)) ==> AfterNextSong(data, s, d1, d2).current.index == Some(pick))
    ensures IsSong(data, Some(RandomPick(d1, d2, s.current.index.value)))
  {
    DistinctBelowIsShort(s.shuffleIndexes, |data|);
  }

  /** Outside shuffle mode `updateUIOnSongPlay` disables previous exactly
      at index 0 and next exactly at `songs.length - 1`, whatever the
      playing list is. */
  lemma BoundaryFlags(data: seq<Song>, s: State, i: int)
    requires !s.shuffle && 0 <= i < |data|
    ensures AfterPlaySong(data, s, Some(i)).previousDisabled <==> i == 0
    ensures AfterPlaySong(data, s, Some(i)).nextDisabled <==> i == |data| - 1
  {
  }

  /** On the full list the two disabled buttons are the two places where a
      move would go wrong: next does nothing, and previous loses the
      index. */
  lemma BoundaryButtons(data: seq<Song>, s: State, i: int, d1: int, d2: int)
    requires !s.shuffle && s.current.index == Some(i) && 0 <= i < |data|
    requires s.playing == Range(|data|)
    ensures AfterPlaySong(data, s, Some(i)).previousDisabled <==> i == 0
    ensures AfterPlaySong(data, s, Some(i)).nextDisabled <==> i == |data| - 1
    ensures AfterNextSong(data, s, d1, d2).current == s.current <==> i == |data| - 1
    ensures AfterPreviousSong(data, s, d1, d2).current.index == None <==> i == 0
  {
    IndexOfRange(|data|, i);
    SequentialNext(data, s, i, d1, d2);
    SequentialPrevious(data, s, i, d1, d2);
  }

  /** Track end: `infinite` replays the same index and keeps the mode,
      `once` replays it and drops to `off`, `off` without shuffle at the
      last catalog index changes nothing, and every other case is next.
      The replays have no `.then` restore, so the list on screen becomes
      the playing list. */
  lemma AudioEndDispatch(data: seq<Song>, s: State, d1: int, d2: int)
    requires WellFormed(data, s) && Started(s.current.index)
    ensures var r := AfterAudioEnd(data, s, d1, d2);
      && (s.loop == Infinite ==> r.current == s.current && r.loop == Infinite && r.playing == s.filtered)
      && (s.loop == Once ==> r.current == s.current && r.loop == Off && r.playing == s.filtered)
      && (s.loop == Off && !s.shuffle && s.current.index == Some(|data| - 1) ==> r == s)
      && (s.loop == Off && (s.shuffle || s.current.index != Some(|data| - 1)) ==>
            r == AfterNextSong(data, s, d1, d2))
  {
  }

  /** The artist click: the clicked artist's songs go on screen, the
      playing list becomes the list that was on screen (once something has
      been played), and the shuffle order is redrawn from the playing list.
      The playing song itself is not touched. */
  lemma ArtistClickBookkeeping(data: seq<Song>, s: State, artistId: string, js: seq<int>)
    requires ValidDraws(js, |TabAfterClick(s)|)
    ensures var r := AfterArtistClick(data, s, artistId, js);
      && (forall k :: k in r.filtered <==> 0 <= k < |data| && IsSinger(data[k].singer, artistId))
      && Increasing(r.filtered)
      && r.playing == (if Started(s.current.index) then s.filtered else s.playing)
      && multiset(r.shuffleIndexes) == multiset(r.playing)
      && r.current == s.current && r.loop == s.loop && r.shuffle == s.shuffle
  {
    MatchingIsFilter(data, artistId, |data|);
    ShuffledIsPermutation(TabAfterClick(s), js);
  }

  /** The home click: every song goes back on screen, with the same
      bookkeeping of the playing list and the shuffle order. */
  lemma HomeClickBookkeeping(data: seq<Song>, s: State, js: seq<int>)
    requires ValidDraws(js, |TabAfterClick(s)|)
    ensures var r := AfterHomeClick(data, s, js);
      && r.filtered == Range(|data|)
      && r.playing == (if Started(s.current.index) then s.filtered else s.playing)
      && multiset(r.shuffleIndexes) == multiset(r.playing)
      && r.current == s.current
  {
    ShuffledIsPermutation(TabAfterClick(s), js);
  }

  /** Every handler keeps the lists duplicate-free and within the catalog,
      and the record consistent with the song it names. */
  lemma PlayKeepsWellFormed(data: seq<Song>, s: State, index: Option<int>)
    requires WellFormed(data, s)
    ensures WellFormed(data, AfterPlaySong(data, s, index))
  {
  }

  lemma NextKeepsWellFormed(data: seq<Song>, s: State, d1: int, d2: int)
    requires WellFormed(data, s)
    ensures WellFormed(data, AfterNextSong(data, s, d1, d2))
  {
    if Started(s.current.index) && !s.shuffle && s.current.index.value < |data| - 1 {
      var target := At(s.playing, IndexOf(s.playing, s.current.index.value) + 1);
      assert target.Some? ==> IsSong(data, target);
    }
  }

  lemma PreviousKeepsWellFormed(data: seq<Song>, s: State, d1: int, d2: int)
    requires WellFormed(data, s)
    ensures WellFormed(data, AfterPreviousSong(data, s, d1, d2))
  {
    if Started(s.current.index) && !s.shuffle {
      var target := At(s.playing, IndexOf(s.playing, s.current.index.value) - 1);
      assert target.Some? ==> IsSong(data, target);
    }
  }

  lemma AudioEndKeepsWellFormed(data: seq<Song>, s: State, d1: int, d2: int)
    requires WellFormed(data, s)
    ensures WellFormed(data, AfterAudioEnd(data, s, d1, d2))
  {
    PlayKeepsWellFormed(data, s, s.current.index);
    PlayKeepsWellFormed(data, s.(loop := Off), s.current.index);
    NextKeepsWellFormed(data, s, d1, d2);
  }

  lemma ArtistClickKeepsWellFormed(data: seq<Song>, s: State, artistId: string, js: seq<int>)
    requires WellFormed(data, s) && ValidDraws(js, |TabAfterClick(s)|)
    ensures WellFormed(data, AfterArtistClick(data, s, artistId, js))
  {
    MatchingIsFilter(data, artistId, |data|);
    ShuffledKeepsIndexList(TabAfterClick(s), js, |data|);
  }

  lemma HomeClickKeepsWellFormed(data: seq<Song>, s: State, js: seq<int>)
    requires WellFormed(data, s) && ValidDraws(js, |TabAfterClick(s)|)
    ensures WellFormed(data, AfterHomeClick(data, s, js))
  {
    ShuffledKeepsIndexList(TabAfterClick(s), js, |data|);
  }

  lemma FlagHandlersKeepWellFormed(data: seq<Song>, s: State)
    requires WellFormed(data, s)
    ensures WellFormed(data, AfterShuffle(s)) && WellFormed(data, AfterLoopClick(s))
    ensures WellFormed(data, AfterAddToPlaylist(s))
  {
  }

  /** Adding the playing song to the playlist a second time changes
      nothing, and an existing entry is never overwritten. */
  lemma AddToPlaylistIdempotent(s: State)
    ensures AfterAddToPlaylist(AfterAddToPlaylist(s)) == AfterAddToPlaylist(s)
    ensures SongIdentifier(s.current) in s.playlist ==> AfterAddToPlaylist(s) == s
  {
  }

  /** A filtered playing list lets sequential next fall off its end: with
      two songs and only the first on the playing list, next leaves the
      index `undefined`. */
  lemma FilteredNextLosesIndex(a: Song, b: Song, d1: int, d2: int)
    ensures var s := State(CurrentSong(a.name, a.singer, a.image, Some(0)), false, Off,
                           [0], [0], [0], true, false, map[]);
      AfterNextSong([a, b], s, d1, d2).current.index == None
  {
  }

  // ---------------------------------------------------------------------
  // The page's module-level variables and the handlers that reassign them

  class Player {
    const songsData: seq<Song>
    const totalIndexes: seq<int>
    var currentSong: CurrentSong
    var shuffle: bool
    var loop: LoopMode
    var filteredIndexes: seq<int>
    var playingSongTabIndexes: seq<int>
    var shuffleIndexes: seq<int>
    var previousDisabled: bool
    var nextDisabled: bool
    var userPlaylist: map<string, CurrentSong>

    /** `totalIndexes` lists every position of `songsData`, as
        `fetchSongs` builds it. */
    ghost predicate Valid()
      reads this
    {
      totalIndexes == Range(|songsData|)
    }

    function Snapshot(): State
      reads this
    {
      State(currentSong, shuffle, loop, filteredIndexes, playingSongTabIndexes, shuffleIndexes,
            previousDisabled, nextDisabled, userPlaylist)
    }

    /** Page load: `fetchSongs` fills `songsData` and `totalIndexes`, the
        `.then` makes the full list both the list on screen and the playing
        list, and `displaySongs` draws the first shuffle order. */
    constructor Load(data: seq<Song>, js: seq<int>)
      requires ValidDraws(js, |data|)
      ensures Valid() && songsData == data
      ensures Snapshot() == State(Unplayed, false, Off, Range(|data|), Range(|data|),
                                  Shuffled(Range(|data|), js), false, false, map[])
      ensures WellFormed(songsData, Snapshot())
    {
      songsData, totalIndexes := data, Range(|data|);
      new;
      currentSong := Unplayed;
      shuffle, loop := false, Off;
      filteredIndexes, playingSongTabIndexes := totalIndexes, totalIndexes;
      previousDisabled, nextDisabled := false, false;
      userPlaylist := map[];
      shuffleIndexes := ShuffleArray(playingSongTabIndexes, js);
      ShuffledKeepsIndexList(Range(|data|), js, |data|);
      assert Distinct(Range(|data|));
    }

    /** `filterSongs(artist)`: starts from an empty list and pushes every
        matching position. */
    method FilterSongs(artist: string)
      modifies this`filteredIndexes
      ensures filteredIndexes == Matching(songsData, artist, |songsData|)
    {
      filteredIndexes := [];
      var index := 0;
      while index < |songsData|
        invariant 0 <= index <= |songsData|
        invariant filteredIndexes == Matching(songsData, artist, index)
      {
        if IsSinger(songsData[index].singer, artist) {
          filteredIndexes := filteredIndexes + [index];
        }
        index := index + 1;
      }
    }

    /** The last statement of `displaySongs`. */
    method DisplaySongs(js: seq<int>)
      requires ValidDraws(js, |playingSongTabIndexes|)
      modifies this`shuffleIndexes
      ensures shuffleIndexes == Shuffled(playingSongTabIndexes, js)
    {
      shuffleIndexes := ShuffleArray(playingSongTabIndexes, js);
    }

    method ArtistClick(artistId: string, js: seq<int>)
      requires ValidDraws(js, |TabAfterClick(Snapshot())|)
      modifies this
      ensures Snapshot() == AfterArtistClick(songsData, old(Snapshot()), artistId, js)
    {
      if currentSong.index.Some? && currentSong.index.value >= 0 {
        playingSongTabIndexes := filteredIndexes;
      }
      FilterSongs(artistId);
      DisplaySongs(js);
    }

    method HomeClick(js: seq<int>)
      requires Valid()
      requires ValidDraws(js, |TabAfterClick(Snapshot())|)
      modifies this
      ensures Snapshot() == AfterHomeClick(songsData, old(Snapshot()), js)
    {
      if currentSong.index.Some? && currentSong.index.value >= 0 {
        playingSongTabIndexes := filteredIndexes;
      }
      filteredIndexes := totalIndexes;
      DisplaySongs(js);
    }

    /** `playSong(index)`; `resolved` says whether its promise resolves
        (`false` when `songsData[index]` is missing and the call throws). */
    method PlaySong(index: Option<int>) returns (resolved: bool)
      modifies this
      ensures resolved == IsSong(songsData, index)
      ensures Snapshot() == AfterPlaySong(songsData, old(Snapshot()), index)
    {
      if !(index.Some? && 0 <= index.value < |songsData|) {
        return false;
      }
      var song := songsData[index.value];
      currentSong := CurrentSong(song.name, song.singer, song.image, index);
      if !shuffle {
        previousDisabled := index.value == 0;
        nextDisabled := index.value == |songsData| - 1;
      }
      playingSongTabIndexes := filteredIndexes;
      return true;
    }

    method NextSong(d1: int, d2: int)
      requires IsRandomIndex(d1, |shuffleIndexes|) && IsRandomIndex(d2, |shuffleIndexes|)
      modifies this
      ensures Snapshot() == AfterNextSong(songsData, old(Snapshot()), d1, d2)
    {
      if !(currentSong.index.Some? && currentSong.index.value >= 0) {
        return;
      }
      var i := currentSong.index.value;
      var researvedIndexes := playingSongTabIndexes;
      var target: Option<int>;
      if shuffle {
        var pos := IndexOf(shuffleIndexes, i);
        if pos == |shuffleIndexes| - 1 {
          var randomIndex := d1;
          randomIndex := if randomIndex == i then d2 else randomIndex;
          target := Some(randomIndex);
        } else {
          target := At(shuffleIndexes, pos + 1);
        }
      } else if i < |songsData| - 1 {
        currentSong := currentSong.(index := At(playingSongTabIndexes, IndexOf(playingSongTabIndexes, i) + 1));
        target := currentSong.index;
      } else {
        return;
      }
      var resolved := PlaySong(target);
      if resolved {
        playingSongTabIndexes := researvedIndexes;
      }
    }

    method PreviousSong(d1: int, d2: int)
      requires IsRandomIndex(d1, |shuffleIndexes|) && IsRandomIndex(d2, |shuffleIndexes|)
      modifies this
      ensures Snapshot() == AfterPreviousSong(songsData, old(Snapshot()), d1, d2)
    {
      if !(currentSong.index.Some? && currentSong.index.value >= 0) {
        return;
      }
      var i := currentSong.index.value;
      var researvedIndexes := playingSongTabIndexes;
      if shuffle {
        var pos := IndexOf(shuffleIndexes, i);
        var target: Option<int>;
        if pos == 0 {
          var randomIndex := d1;
          randomIndex := if randomIndex == i then d2 else randomIndex;
          target := Some(randomIndex);
        } else {
          target := At(shuffleIndexes, pos - 1);
        }
        var resolved := PlaySong(target);
        if resolved {
          playingSongTabIndexes := researvedIndexes;
        }
      } else {
        currentSong := currentSong.(index := At(playingSongTabIndexes, IndexOf(playingSongTabIndexes, i) - 1));
        var _ := PlaySong(currentSong.index);
      }
    }

    method HandleAudioEnd(d1: int, d2: int)
      requires IsRandomIndex(d1, |shuffleIndexes|) && IsRandomIndex(d2, |shuffleIndexes|)
      modifies this
      ensures Snapshot() == AfterAudioEnd(songsData, old(Snapshot()), d1, d2)
    {
      if loop == Infinite {
        var _ := PlaySong(currentSong.index);
      } else if loop == Once {
        loop := Off;
        var _ := PlaySong(currentSong.index);
      } else if !shuffle && currentSong.index == Some(|songsData| - 1) {
        // only the play/pause icons change
      } else {
        NextSong(d1, d2);
      }
    }

    method HandleShuffle()
      modifies this
      ensures Snapshot() == AfterShuffle(old(Snapshot()))
    {
      shuffle := !shuffle;
      previousDisabled, nextDisabled := false, false;
    }

    method HandleLoop()
      modifies this
      ensures Snapshot() == AfterLoopClick(old(Snapshot()))
    {
      loop := FromCode((Code(loop) + 1) % 3);
    }

    method HandleAddToPlaylist()
      modifies this
      ensures Snapshot() == AfterAddToPlaylist(old(Snapshot()))
    {
      var songIdentifier := currentSong.name + "-" + currentSong.singer;
      if songIdentifier !in userPlaylist {
        userPlaylist := userPlaylist[songIdentifier := currentSong];
      }
    }
  }
}
