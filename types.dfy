/** Optional values, standing in for TypeScript's `T | undefined` and `T | null`. */
module Wrappers {
  datatype Option<+T> = None | Some(value: T)
}

/** The value types shared by the page, its toggle button and its overlay. */
module Types {

  /** The display theme of the whole page. */
  datatype Theme = Light | Dark

  /** A screen-space point in CSS pixels. */
  datatype Position = Position(x: real, y: real)

  /** The transition record: whether an overlay is running, where it is
      anchored and which theme it is moving the page to. */
  datatype TransitionState = TransitionState(isActive: bool, origin: Position, targetTheme: Theme)

  /** The binary theme flip used both to choose a transition's target and to
      commit the swap. */
  function Flip(t: Theme): (r: Theme)
    ensures r != t
  {
    if t == Light then Dark else Light
  }

  /** Flipping twice is the identity, so the flip is its own inverse. */
  lemma FlipInvolution(t: Theme)
    ensures Flip(Flip(t)) == t
    ensures forall u: Theme :: Flip(u) == t <==> u == Flip(t)
  {
  }

  /** The theme reached from `t` after `n` flips. */
  function FlipTimes(t: Theme, n: nat): Theme
  {
    if n == 0 then t else Flip(FlipTimes(t, n - 1))
  }

  /** Only the parity of the number of flips matters. */
  lemma {:induction false} FlipTimesParity(t: Theme, n: nat)
    ensures FlipTimes(t, n) == if n % 2 == 0 then t else Flip(t)
  {
    if n > 0 {
      FlipTimesParity(t, n - 1);
    }
  }
}
