/** The two small rules of `nextSong` and `previousSong` that both
    revisions of the player write the same way. */
module Sequencing {
  import opened Wrappers

  /** `currentSong.index >= 0`: a song has been played and its index is
      still a number (`undefined >= 0` is false). */
  predicate Started(index: Option<int>)
  {
    index.Some? && index.value >= 0
  }

  /** The boundary draw: the first draw, redrawn once if it equals the
      current index. */
  function RandomPick(d1: int, d2: int, current: int): int
  {
    if d1 == current then d2 else d1
  }
}
