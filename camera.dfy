/** The horizontally scrolling camera. */
module Scrolling {
  import opened Geometry

  /** The camera starts scrolling once the target is half a screen ahead of it. */
  const ScrollEdge: real := (ScreenWidth / 2) as real

  function Max(a: real, b: real): real
  {
    if a < b then b else a
  }

  /**
   * The scroll offset after following target from scroll: pull the camera
   * along when the target is more than ScrollEdge ahead, then clamp at 0.
   * The result is the largest of 0, the old offset and target - ScrollEdge,
   * so it is never negative, never moves back from a non-negative offset and
   * keeps the target at most ScrollEdge ahead.
   */
  function Follow(scroll: real, target: real): (r: real)
    ensures r == Max(0.0, Max(scroll, target - ScrollEdge))
    ensures r >= 0.0
    ensures scroll >= 0.0 ==> r >= scroll
    ensures target - r <= ScrollEdge
  {
    var s := if target - scroll > ScrollEdge then target - ScrollEdge else scroll;
    if s < 0.0 then 0.0 else s
  }

  /** Following is idempotent: a second update towards the same target changes nothing. */
  lemma FollowIdempotent(scroll: real, target: real)
    ensures Follow(Follow(scroll, target), target) == Follow(scroll, target)
  {
  }

  class Camera {
    var scrollX: real

    constructor ()
      ensures scrollX == 0.0
    {
      scrollX := 0.0;
    }

    method Update(target: real)
      modifies this
      ensures scrollX == Follow(old(scrollX), target)
    {
      if target - scrollX > ScrollEdge {
        scrollX := target - ScrollEdge;
      }
      if scrollX < 0.0 {
        scrollX := 0.0;
      }
    }
  }
}
