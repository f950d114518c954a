/** The like button shared by the image card, the search result card and the
    two slider cards: `isLiked` starts false, and a press flips it and moves
    `likesCount` by one in the direction the previous state says. */
module Likes {

  /** The two pieces of React state of a like button. */
  datatype LikeState = LikeState(isLiked: bool, count: int)

  /** The count the button started from: the count minus the user's own
      like. */
  function Base(s: LikeState): int {
    s.count - (if s.isLiked then 1 else 0)
  }

  /** `setIsLiked(!isLiked); setLikesCount(prev => isLiked ? prev - 1 : prev + 1)`:
      the flag flips and the starting count is kept, so the count is always
      the starting count plus one exactly while the button is liked. */
  function Pressed(s: LikeState): (r: LikeState)
    ensures r.isLiked != s.isLiked
    ensures Base(r) == Base(s)
  {
    LikeState(!s.isLiked, if s.isLiked then s.count - 1 else s.count + 1)
  }

  /** Two presses restore both the flag and the count. */
  lemma PressedTwice(s: LikeState)
    ensures Pressed(Pressed(s)) == s
  {
  }

  class LikeButton {
    var state: LikeState
    const initial: int

    ghost predicate Valid()
      reads this
    {
      Base(state) == initial
    }

    /** `useState(false)` and `useState(initialCount)`. */
    constructor(initial: int)
      ensures Valid()
      ensures state == LikeState(false, initial)
    {
      this.initial := initial;
      state := LikeState(false, initial);
    }

    method Press()
      requires Valid()
      modifies this
      ensures Valid()
      ensures state == Pressed(old(state))
    {
      state := Pressed(state);
    }
  }
}
