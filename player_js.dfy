/** The playback sequencing of the older revision (dist/app.js): a `songs`
    map keyed 0..n-1, the list `indexes`, one shuffle order drawn at load,
    and the `currentSong`, `shuffle` and `loop` variables that the control
    handlers reassign. `playSong` is taken to complete before the next
    event. */
module PlayerJs {
  import opened Wrappers
  import opened IndexLists
  import opened LoopModes
  import opened Shuffle
  import opened Sequencing

  /** One entry of the manifest. */
  datatype Track = Track(name: string, singer: string, image: string, url: string)

  /** The `currentSong` record: the fields of the playing track and its
      index. The index is `Some(-1)` before the first play and `None` once
      the player has assigned `undefined` to it. */
  datatype CurrentSong = CurrentSong(track: Track, index: Option<int>)

  const Unplayed := CurrentSong(Track("", "", "", ""), Some(-1))

  /** What is built once at load and never changed: the `songs` map,
      `indexes` and `shuffleIndexes`. */
  datatype Catalog = Catalog(songs: map<int, Track>, indexes: seq<int>, shuffleIndexes: seq<int>)

  /** The variables the handlers change. The two flags are whether the
      previous and next buttons carry `pointer-events-none`. */
  datatype State = State(current: CurrentSong, shuffle: bool, loop: LoopMode,
                         previousDisabled: bool, nextDisabled: bool)

  const Initial := State(Unplayed, false, Off, false, false)

  /** The catalog as load leaves it: keys and `indexes` are exactly
      0..n-1, and `shuffleIndexes` orders those same indices. */
  ghost predicate Loaded(cat: Catalog)
  {
    var n := |cat.indexes|;
    && cat.indexes == Range(n)
    && (forall k :: k in cat.songs <==> 0 <= k < n)
    && |cat.shuffleIndexes| == n
    && Distinct(cat.shuffleIndexes) && AllBelow(cat.shuffleIndexes, n)
  }

  /** The record is the initial one, `undefined`, or names a song and
      carries that song's fields. */
  ghost predicate Consistent(cat: Catalog, s: State)
  {
    || s.current == Unplayed
    || s.current.index == None
    || (s.current.index.Some? && s.current.index.value in cat.songs
        && s.current.track == cat.songs[s.current.index.value])
  }

  /** `fetchSongs`: every manifest entry is stored under its position, and
      the position is pushed onto `indexes`. */
  method FetchSongs(data: seq<Track>) returns (songs: map<int, Track>, indexes: seq<int>)
    ensures forall k :: k in songs <==> 0 <= k < |data|
    ensures forall k :: 0 <= k < |data| ==> songs[k] == data[k]
    ensures indexes == Range(|data|)
  {
    songs, indexes := map[], [];
    var index := 0;
    while index < |data|
      invariant 0 <= index <= |data|
      invariant forall k :: k in songs <==> 0 <= k < index
      invariant forall k :: 0 <= k < index ==> songs[k] == data[k]
      invariant indexes == Range(index)
    {
      songs := songs[index := data[index]];
      indexes := indexes + [index];
      index := index + 1;
    }
  }

  /** `playSong(index)`: an index that is not a key of `songs` returns
      early; otherwise the record is replaced and, outside shuffle mode,
      `renderCurrentSong` sets the two button flags. */
  function AfterPlaySong(cat: Catalog, s: State, index: Option<int>): State
  {
    if index.Some? && index.value in cat.songs then
      var i := index.value;
      s.(current := CurrentSong(cat.songs[i], index),
         previousDisabled := if s.shuffle then s.previousDisabled else i == 0,
         nextDisabled := if s.shuffle then s.nextDisabled else i == |cat.songs| - 1)
    else s
  }

  function AfterNextSong(cat: Catalog, s: State, d1: int, d2: int): State
  {
    if !Started(s.current.index) then s
    else
      var i := s.current.index.value;
      if s.shuffle then
        var pos := IndexOf(cat.shuffleIndexes, i);
        if pos == |cat.shuffleIndexes| - 1 then AfterPlaySong(cat, s, Some(RandomPick(d1, d2, i)))
        else AfterPlaySong(cat, s, At(cat.shuffleIndexes, pos + 1))
      else if i < |cat.songs| - 1 then
        var target := At(cat.indexes, IndexOf(cat.indexes, i) + 1);
        AfterPlaySong(cat, s.(current := s.current.(index := target)), target)
      else s
  }

  function AfterPreviousSong(cat: Catalog, s: State, d1: int, d2: int): State
  {
    if !Started(s.current.index) then s
    else
      var i := s.current.index.value;
      if s.shuffle then
        var pos := IndexOf(cat.shuffleIndexes, i);
        if pos == 0 then AfterPlaySong(cat, s, Some(RandomPick(d1, d2, i)))
        else AfterPlaySong(cat, s, At(cat.shuffleIndexes, pos - 1))
      else
        var target := At(cat.indexes, IndexOf(cat.indexes, i) - 1);
        AfterPlaySong(cat, s.(current := s.current.(index := target)), target)
  }

  function AfterAudioEnd(cat: Catalog, s: State, d1: int, d2: int): State
  {
    match s.loop
    case Infinite => AfterPlaySong(cat, s, s.current.index)
    case Once => AfterPlaySong(cat, s.(loop := Off), s.current.index)
    case Off =>
      if !s.shuffle && s.current.index == Some(|cat.songs| - 1) then s
      else AfterNextSong(cat, s, d1, d2)
  }

  /** `handleShuffle`: flips the flag and re-enables both buttons. */
  function AfterShuffle(s: State): State
  {
    s.(shuffle := !s.shuffle, previousDisabled := false, nextDisabled := false)
  }

  /** The loop button's click handler. */
  function AfterLoopClick(s: State): State
  {
    s.(loop := NextLoop(s.loop))
  }

  // ---------------------------------------------------------------------
  // Properties of the rules

  lemma LoadedSize(cat: Catalog)
    requires Loaded(cat)
    ensures |cat.songs| == |cat.indexes|
  {
    var n := |cat.indexes|;
    assert cat.songs.Keys == set x | x in Range(n) by {
      forall x | x in Range(n) ensures x in cat.songs {
        var k :| 0 <= k < n && Range(n)[k] == x;
      }
      forall x | x in cat.songs ensures x in Range(n) {
        assert Range(n)[x] == x;
      }
    }
    RangeCard(n);
  }

  /** Load builds a catalog of this shape from any manifest and any draws. */
  lemma ManifestCatalogIsLoaded(songs: map<int, Track>, n: nat, js: seq<int>)
    requires forall k :: k in songs <==> 0 <= k < n
    requires ValidDraws(js, n)
    ensures Loaded(Catalog(songs, Range(n), Shuffled(Range(n), js)))
  {
    ShuffledRangeNamesEverySong(n, js);
  }

  /** Next and previous do nothing before the first play (or once the index
      is `undefined`). */
  lemma NoMoveBeforeFirstPlay(cat: Catalog, s: State, d1: int, d2: int)
    requires !Started(s.current.index)
    ensures AfterNextSong(cat, s, d1, d2) == s
    ensures AfterPreviousSong(cat, s, d1, d2) == s
  {
  }

  /** A missing key leaves the record and the buttons as they were. */
  lemma PlayMissingKeyIsIgnored(cat: Catalog, s: State, index: Option<int>)
    requires index.None? || index.value !in cat.songs
    ensures AfterPlaySong(cat, s, index) == s
  {
  }

  /** Every handler keeps the record consistent with the catalog. */
  lemma PlayKeepsConsistent(cat: Catalog, s: State, index: Option<int>)
    requires Consistent(cat, s)
    ensures Consistent(cat, AfterPlaySong(cat, s, index))
  {
  }

  lemma NextKeepsConsistent(cat: Catalog, s: State, d1: int, d2: int)
    requires Loaded(cat) && Consistent(cat, s)
    ensures Consistent(cat, AfterNextSong(cat, s, d1, d2))
  {
    if Started(s.current.index) && !s.shuffle {
      var i := s.current.index.value;
      var target := At(cat.indexes, IndexOf(cat.indexes, i) + 1);
      assert target.Some? ==> target.value in cat.songs;
    }
  }

  lemma PreviousKeepsConsistent(cat: Catalog, s: State, d1: int, d2: int)
    requires Loaded(cat) && Consistent(cat, s)
    ensures Consistent(cat, AfterPreviousSong(cat, s, d1, d2))
  {
    if Started(s.current.index) && !s.shuffle {
      var i := s.current.index.value;
      var target := At(cat.indexes, IndexOf(cat.indexes, i) - 1);
      assert target.Some? ==> target.value in cat.songs;
    }
  }

  lemma HandlersKeepConsistent(cat: Catalog, s: State, d1: int, d2: int)
    requires Loaded(cat) && Consistent(cat, s)
    ensures Consistent(cat, AfterAudioEnd(cat, s, d1, d2))
    ensures Consistent(cat, AfterShuffle(s)) && Consistent(cat, AfterLoopClick(s))
  {
    NextKeepsConsistent(cat, s, d1, d2);
  }

  /** Sequential next: the song after `i` while `i < songs.size - 1`, and
      nothing at the last song. There is no wrap-around. */
  lemma SequentialNext(cat: Catalog, s: State, i: int, d1: int, d2: int)
    requires Loaded(cat) && !s.shuffle
    requires s.current.index == Some(i) && 0 <= i < |cat.indexes|
    ensures var r := AfterNextSong(cat, s, d1, d2);
      && (i < |cat.indexes| - 1 ==>
            r.current == CurrentSong(cat.songs[i + 1], Some(i + 1))
            && !r.previousDisabled && r.nextDisabled == (i + 1 == |cat.indexes| - 1))
      && (i == |cat.indexes| - 1 ==> r == s)
  {
    LoadedSize(cat);
    IndexOfRange(|cat.indexes|, i);
  }

  /** Sequential previous: the song before `i` for `i >= 1`; at index 0 the
      lookup `indexes[-1]` is `undefined`, which is stored as the index and
      then ignored by `playSong`. */
  lemma SequentialPrevious(cat: Catalog, s: State, i: int, d1: int, d2: int)
    requires Loaded(cat) && !s.shuffle
    requires s.current.index == Some(i) && 0 <= i < |cat.indexes|
    ensures var r := AfterPreviousSong(cat, s, d1, d2);
      && (i >= 1 ==>
            r.current == CurrentSong(cat.songs[i - 1], Some(i - 1))
            && r.previousDisabled == (i - 1 == 0) && !r.nextDisabled)
      && (i == 0 ==> r == s.(current := s.current.(index := None)))
  {
    LoadedSize(cat);
    IndexOfRange(|cat.indexes|, i);
  }

  /** Next then previous comes back to `i` for `0 <= i < size - 1`. */
  lemma SequentialNextThenPrevious(cat: Catalog, s: State, i: int, d1: int, d2: int, e1: int, e2: int)
    requires Loaded(cat) && !s.shuffle
    requires s.current.index == Some(i) && 0 <= i < |cat.indexes| - 1
    ensures AfterPreviousSong(cat, AfterNextSong(cat, s, d1, d2), e1, e2).current
            == CurrentSong(cat.songs[i], Some(i))
  {
    SequentialNext(cat, s, i, d1, d2);
    SequentialPrevious(cat, AfterNextSong(cat, s, d1, d2), i + 1, e1, e2);
  }

  /** Outside shuffle mode the disabled buttons mark exactly the two
      boundary cases: next does nothing exactly at the last song, and
      previous loses the index exactly at the first. */
  lemma BoundaryButtons(cat: Catalog, s: State, i: int, d1: int, d2: int)
    requires Loaded(cat) && !s.shuffle
    requires s.current.index == Some(i) && 0 <= i < |cat.indexes|
    ensures AfterPlaySong(cat, s, Some(i)).previousDisabled <==> i == 0
    ensures AfterPlaySong(cat, s, Some(i)).nextDisabled <==> i == |cat.indexes| - 1
    ensures AfterNextSong(cat, s, d1, d2) == s <==> i == |cat.indexes| - 1
    ensures AfterPreviousSong(cat, s, d1, d2).current.index == None <==> i == 0
  {
    LoadedSize(cat);
    SequentialNext(cat, s, i, d1, d2);
    SequentialPrevious(cat, s, i, d1, d2);
  }

  /** Shuffle mode steps through `shuffleIndexes`: the entry after (before)
      the current one, and at the last (first) entry the boundary draw. */
  lemma ShuffleSteps(cat: Catalog, s: State, p: int, d1: int, d2: int)
    requires Loaded(cat) && s.shuffle
    requires 0 <= p < |cat.shuffleIndexes| && s.current.index == Some(cat.shuffleIndexes[p])
    ensures var i := cat.shuffleIndexes[p];
      var next := AfterNextSong(cat, s, d1, d2).current.index;
      var previous := AfterPreviousSong(cat, s, d1, d2).current.index;
      && (p < |cat.shuffleIndexes| - 1 ==> next == Some(cat.shuffleIndexes[p + 1]))
      && (p == |cat.shuffleIndexes| - 1 && RandomPick(d1, d2, i) in cat.songs ==>
            next == Some(RandomPick(d1, d2, i)))
      && (p > 0 ==> previous == Some(cat.shuffleIndexes[p - 1]))
      && (p == 0 && RandomPick(d1, d2, i) in cat.songs ==> previous == Some(RandomPick(d1, d2, i)))
  {
    IndexOfDistinct(cat.shuffleIndexes, p);
  }

  /** Since `shuffleIndexes` has no duplicates, next then previous in
      shuffle mode returns to the start unless next hit the last entry. */
  lemma ShuffleNextThenPrevious(cat: Catalog, s: State, p: int, d1: int, d2: int, e1: int, e2: int)
    requires Loaded(cat) && s.shuffle
    requires 0 <= p < |cat.shuffleIndexes| - 1 && s.current.index == Some(cat.shuffleIndexes[p])
    ensures AfterPreviousSong(cat, AfterNextSong(cat, s, d1, d2), e1, e2).current.index
            == Some(cat.shuffleIndexes[p])
  {
    ShuffleSteps(cat, s, p, d1, d2);
    ShuffleSteps(cat, AfterNextSong(cat, s, d1, d2), p + 1, e1, e2);
  }

  /** Because `shuffleIndexes` is a permutation of `0..n-1` and the draws
      lie in `[0, n)`, shuffle mode only ever names a key of `songs`: the
      move always happens and loads that song's fields. */
  lemma ShuffleAlwaysNamesASong(cat: Catalog, s: State, d1: int, d2: int)
    requires Loaded(cat) && Consistent(cat, s) && s.shuffle && Started(s.current.index)
    requires IsRandomIndex(d1, |cat.shuffleIndexes|) && IsRandomIndex(d2, |cat.shuffleIndexes|)
    ensures var r := AfterNextSong(cat, s, d1, d2);
      r.current.index.Some? && r.current.index.value in cat.songs
      && r.current.track == cat.songs[r.current.index.value]
    ensures var r := AfterPreviousSong(cat, s, d1, d2);
      r.current.index.Some? && r.current.index.value in cat.songs
      && r.current.track == cat.songs[r.current.index.value]
  {
    var i := s.current.index.value;
    assert i in cat.songs;
  }

  /** Track end: `infinite` replays the song and keeps the mode, `once`
      replays it and drops to `off`, `off` without shuffle at the last song
      changes nothing, and everything else is next. */
  lemma AudioEndDispatch(cat: Catalog, s: State, d1: int, d2: int)
    requires Consistent(cat, s) && Started(s.current.index)
    ensures var r := AfterAudioEnd(cat, s, d1, d2);
      && (s.loop == Infinite ==> r.current == s.current && r.loop == Infinite)
      && (s.loop == Once ==> r.current == s.current && r.loop == Off)
      && (s.loop == Off && !s.shuffle && s.current.index == Some(|cat.songs| - 1) ==> r == s)
      && (s.loop == Off && (s.shuffle || s.current.index != Some(|cat.songs| - 1)) ==>
            r == AfterNextSong(cat, s, d1, d2))
  {
  }

  // ---------------------------------------------------------------------
  // The page's module-level variables and the handlers that reassign them

  class Player {
    const songs: map<int, Track>
    const indexes: seq<int>
    const shuffleIndexes: seq<int>
    var currentSong: CurrentSong
    var shuffle: bool
    var loop: LoopMode
    var previousDisabled: bool
    var nextDisabled: bool

    function Data(): Catalog
    {
      Catalog(songs, indexes, shuffleIndexes)
    }

    function Snapshot(): State
      reads this
    {
      State(currentSong, shuffle, loop, previousDisabled, nextDisabled)
    }

    /** Page load: `fetchSongs`, then `displaySongs`, which draws the one
        shuffle order this revision uses. */
    constructor Load(data: seq<Track>, js: seq<int>)
      requires ValidDraws(js, |data|)
      ensures Loaded(Data()) && |indexes| == |data|
      ensures forall k :: 0 <= k < |data| ==> songs[k] == data[k]
      ensures shuffleIndexes == Shuffled(indexes, js)
      ensures Snapshot() == Initial
    {
      var m, ix := FetchSongs(data);
      var sh := ShuffleArray(ix, js);
      ManifestCatalogIsLoaded(m, |data|, js);
      songs, indexes, shuffleIndexes := m, ix, sh;
      currentSong := Unplayed;
      shuffle, loop := false, Off;
      previousDisabled, nextDisabled := false, false;
    }

    method PlaySong(index: Option<int>)
      modifies this
      ensures Snapshot() == AfterPlaySong(Data(), old(Snapshot()), index)
    {
      if index.None? || index.value !in songs {
        return;
      }
      currentSong := CurrentSong(songs[index.value], index);
      if !shuffle {
        previousDisabled := index.value == 0;
        nextDisabled := index.value == |songs| - 1;
      }
    }

    /** `nextSong`; `d1` and `d2` are the two `Math.random` draws of the
        boundary case. */
    method NextSong(d1: int, d2: int)
      requires IsRandomIndex(d1, |shuffleIndexes|) && IsRandomIndex(d2, |shuffleIndexes|)
      modifies this
      ensures Snapshot() == AfterNextSong(Data(), old(Snapshot()), d1, d2)
    {
      if currentSong.index.Some? && currentSong.index.value >= 0 {
        var i := currentSong.index.value;
        if shuffle {
          var pos := IndexOf(shuffleIndexes, i);
          if pos == |shuffleIndexes| - 1 {
            var randomIndex := d1;
            randomIndex := if randomIndex == i then d2 else randomIndex;
            PlaySong(Some(randomIndex));
          } else {
            PlaySong(At(shuffleIndexes, pos + 1));
          }
        } else if i < |songs| - 1 {
          currentSong := currentSong.(index := At(indexes, IndexOf(indexes, i) + 1));
          PlaySong(currentSong.index);
        }
      }
    }

    method PreviousSong(d1: int, d2: int)
      requires IsRandomIndex(d1, |shuffleIndexes|) && IsRandomIndex(d2, |shuffleIndexes|)
      modifies this
      ensures Snapshot() == AfterPreviousSong(Data(), old(Snapshot()), d1, d2)
    {
      if currentSong.index.Some? && currentSong.index.value >= 0 {
        var i := currentSong.index.value;
        if shuffle {
          var pos := IndexOf(shuffleIndexes, i);
          if pos == 0 {
            var randomIndex := d1;
            randomIndex := if randomIndex == i then d2 else randomIndex;
            PlaySong(Some(randomIndex));
          } else {
            PlaySong(At(shuffleIndexes, pos - 1));
          }
        } else {
          currentSong := currentSong.(index := At(indexes, IndexOf(indexes, i) - 1));
          PlaySong(currentSong.index);
        }
      }
    }

    method HandleAudioEnd(d1: int, d2: int)
      requires IsRandomIndex(d1, |shuffleIndexes|) && IsRandomIndex(d2, |shuffleIndexes|)
      modifies this
      ensures Snapshot() == AfterAudioEnd(Data(), old(Snapshot()), d1, d2)
    {
      if loop == Infinite {
        PlaySong(currentSong.index);
      } else if loop == Once {
        loop := Off;
        PlaySong(currentSong.index);
      } else if !shuffle && currentSong.index == Some(|songs| - 1) {
        // only the play/pause icon changes
      } else {
        NextSong(d1, d2);
      }
    }

    method HandleShuffle()
      modifies this
      ensures Snapshot() == AfterShuffle(old(Snapshot()))
    {
      shuffle := !shuffle;
      previousDisabled, nextDisabled := false, false;
    }

    method HandleLoopClick()
      modifies this
      ensures Snapshot() == AfterLoopClick(old(Snapshot()))
    {
      loop := FromCode((Code(loop) + 1) % 3);
    }
  }
}
