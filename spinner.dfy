/**
 * `Pager2_SpinnerTransformer` of SpinnerTransformer.kt: the centre page
 * spins a full turn as it moves one page away and shrinks while it is
 * within half a page of the centre.
 */
module Spinner {
  import opened Pages

  /** What one call of `transformPage` leaves on a page of the given width. */
  function Spun(p: PageProps, position: real, width: int): (r: PageProps)
    // the page is held in place against the pager's own movement
    ensures r.translationX == -position * width as real
    // within half a page: shown and shrunk; beyond: gone, scale untouched
    ensures Abs(position) <= 0.5 ==>
      r.visibility == Visible && r.scaleX == 1.0 - Abs(position) && r.scaleY == r.scaleX
      && 0.5 <= r.scaleX <= 1.0
    ensures Abs(position) > 0.5 ==> r.visibility == Gone && r.scaleX == p.scaleX && r.scaleY == p.scaleY
    ensures r.visibility != Invisible
    // opaque exactly within one page of the centre
    ensures r.alpha == (if -1.0 <= position <= 1.0 then 1.0 else 0.0)
    // the spin: non-negative on the left, non-positive on the right, untouched offscreen
    ensures -1.0 <= position <= 0.0 ==> r.rotation == 360.0 * Abs(position) && r.rotation >= 0.0
    ensures 0.0 < position <= 1.0 ==> r.rotation == -360.0 * Abs(position) && r.rotation <= 0.0
    ensures position < -1.0 || position > 1.0 ==> r.rotation == p.rotation
    // nothing else changes
    ensures r.translationY == p.translationY && r.rotationX == p.rotationX && r.rotationY == p.rotationY
    ensures r.cameraDistance == p.cameraDistance
    ensures r.pivotFractionX == p.pivotFractionX && r.pivotFractionY == p.pivotFractionY
  {
    var q := p.(translationX := -position * width as real);
    var q := if Abs(position) <= 0.5 then
               q.(visibility := Visible, scaleX := 1.0 - Abs(position), scaleY := 1.0 - Abs(position))
             else if Abs(position) > 0.5 then
               q.(visibility := Gone)
             else q;
    if position < -1.0 then q.(alpha := 0.0)
    else if position <= 0.0 then q.(alpha := 1.0, rotation := 360.0 * Abs(position))
    else if position <= 1.0 then q.(alpha := 1.0, rotation := -360.0 * Abs(position))
    else q.(alpha := 0.0)
  }

  /**
   * Mirror images: pages equally far left and right of the centre get the
   * same scale, visibility and opacity, opposite translations and, on
   * screen, opposite spins.
   */
  lemma SpinMirrored(p: PageProps, position: real, width: int)
    ensures var r := Spun(p, position, width); var m := Spun(p, -position, width);
      m.scaleX == r.scaleX && m.scaleY == r.scaleY && m.visibility == r.visibility
      && m.alpha == r.alpha && m.translationX == -r.translationX
      && (-1.0 <= position <= 1.0 ==> m.rotation == -r.rotation)
  {
    assert Abs(-position) == Abs(position);
  }

  /** Transforming a page a second time at the same position changes nothing. */
  lemma SpinIdempotent(p: PageProps, position: real, width: int)
    ensures Spun(Spun(p, position, width), position, width) == Spun(p, position, width)
  {
  }

  /** `transformPage`: writes the page's properties in the order the source does. */
  method TransformPage(view: ViewPage, position: real)
    modifies view
    ensures view.Props() == Spun(old(view.Props()), position, view.width)
  {
    view.translationX := -position * view.width as real;
    if Abs(position) <= 0.5 {
      view.SetVisibility(Visible);
      view.scaleX := 1.0 - Abs(position);
      view.scaleY := 1.0 - Abs(position);
    } else if Abs(position) > 0.5 {
      view.SetVisibility(Gone);
    }
    if position < -1.0 {
      view.alpha := 0.0;
    } else if position <= 0.0 {
      view.alpha := 1.0;
      view.rotation := 360.0 * Abs(position);
    } else if position <= 1.0 {
      view.alpha := 1.0;
      view.rotation := -360.0 * Abs(position);
    } else {
      view.alpha := 0.0;
    }
  }
}
