/** The repeat button's three modes. Both revisions store the mode as the
    number of a TypeScript enum (`off` = 0, `infinite` = 1, `once` = 2) and
    advance it with `(loop + 1) % 3`. */
module LoopModes {

  datatype LoopMode = Off | Infinite | Once

  /** The enum's numeric value. */
  function Code(m: LoopMode): (c: nat)
    ensures c < 3
  {
    match m
    case Off => 0
    case Infinite => 1
    case Once => 2
  }

  function FromCode(c: nat): (m: LoopMode)
    requires c < 3
    ensures Code(m) == c
  {
    if c == 0 then Off else if c == 1 then Infinite else Once
  }

  /** The repeat button: `loop = (loop + 1) % 3`. */
  function NextLoop(m: LoopMode): (r: LoopMode)
    ensures r != m
    ensures m == Off ==> r == Infinite
    ensures m == Infinite ==> r == Once
    ensures m == Once ==> r == Off
  {
    FromCode((Code(m) + 1) % 3)
  }

  /** Three presses bring the button back to the mode it started in, and no
      fewer do. */
  lemma ThreePressesRestore(m: LoopMode)
    ensures NextLoop(NextLoop(NextLoop(m))) == m
    ensures NextLoop(NextLoop(m)) != m
  {
  }
}
