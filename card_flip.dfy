/**
 * `CardFlipPageTransformer` of CardFlipPageTransformer.kt: pages flip
 * about one axis as they leave the centre, shrinking on the way when the
 * transformer is scalable.
 */
module CardFlip {
  import opened Pages

  const HORIZONTAL := 1
  const VERTICAL := 2

  /**
   * The flip angle for a position: for positions less than two pages away,
   * negative right of centre and positive otherwise.
   */
  function FlipAngle(position: real): (angle: real)
    ensures Abs(position) <= 1.0 ==> 180.0 <= Abs(angle) <= 360.0
    ensures Abs(position) < 2.0 ==> (angle < 0.0 <==> position > 0.0)
    ensures position == 2.0 || position == -2.0 ==> angle == 0.0
  {
    var percentage := 1.0 - Abs(position);
    if position > 0.0 then -180.0 * (percentage + 1.0) else 180.0 * (percentage + 1.0)
  }

  /** The page scale a scalable card-flip transformer writes. */
  function FlipScale(position: real): (s: real)
    ensures position == 0.0 || position == 1.0 ==> s == 1.0
    ensures position != 0.0 && position != 1.0 ==> s == 1.0 - Abs(position)
    ensures Abs(position) <= 1.0 ==> 0.0 <= s <= 1.0
  {
    var percentage := 1.0 - Abs(position);
    if position != 0.0 && position != 1.0 then percentage else 1.0
  }

  /** What one call of `transformPage` leaves on a page. */
  function Flipped(p: PageProps, position: real, left: int, scalable: bool, flipOrientation: int): (r: PageProps)
    ensures r.cameraDistance == 120.0
    // visible only strictly inside half a page of the centre, invisible (never gone) otherwise
    ensures r.visibility == Visible <==> -0.5 < position < 0.5
    ensures r.visibility != Gone
    // the page is pinned at its own left edge
    ensures r.translationX == -(left as real)
    ensures scalable ==> r.scaleX == FlipScale(position) && r.scaleY == FlipScale(position)
    ensures !scalable ==> r.scaleX == p.scaleX && r.scaleY == p.scaleY
    // exactly one rotation axis is written
    ensures flipOrientation == VERTICAL ==> r.rotationY == FlipAngle(position) && r.rotationX == p.rotationX
    ensures flipOrientation != VERTICAL ==> r.rotationX == FlipAngle(position) && r.rotationY == p.rotationY
    // nothing else changes
    ensures r.translationY == p.translationY && r.rotation == p.rotation && r.alpha == p.alpha
    ensures r.pivotFractionX == p.pivotFractionX && r.pivotFractionY == p.pivotFractionY
  {
    var percentage := 1.0 - Abs(position);
    var q := p.(cameraDistance := 120.0);
    var q := q.(visibility := if position < 0.5 && position > -0.5 then Visible else Invisible);
    var q := q.(translationX := -(left as real));
    var q := if !scalable then q
             else q.(scaleX := if position != 0.0 && position != 1.0 then percentage else 1.0,
                     scaleY := if position != 0.0 && position != 1.0 then percentage else 1.0);
    var angle := if position > 0.0 then -180.0 * (percentage + 1.0) else 180.0 * (percentage + 1.0);
    if flipOrientation == VERTICAL then q.(rotationY := angle) else q.(rotationX := angle)
  }

  /** Mirror images: a page left of centre flips by the opposite angle of its twin on the right. */
  lemma FlipAntisymmetric(position: real)
    requires position != 0.0
    ensures FlipAngle(-position) == -FlipAngle(position)
  {
    assert Abs(-position) == Abs(position);
  }

  /**
   * The scale is not symmetric: a page one whole page to the right keeps
   * full size while its twin one page to the left shrinks to nothing.
   */
  lemma FlipScaleLopsided()
    ensures FlipScale(1.0) == 1.0 && FlipScale(-1.0) == 0.0
  {
  }

  /** Transforming a page a second time at the same position changes nothing. */
  lemma FlipIdempotent(p: PageProps, position: real, left: int, scalable: bool, flipOrientation: int)
    ensures var once := Flipped(p, position, left, scalable, flipOrientation);
      Flipped(once, position, left, scalable, flipOrientation) == once
  {
  }

  /** The centre page is full size, visible and turned a full circle. */
  lemma CentrePage(p: PageProps, left: int, flipOrientation: int)
    ensures var r := Flipped(p, 0.0, left, true, flipOrientation);
      r.visibility == Visible && r.scaleX == 1.0 && r.scaleY == 1.0 && FlipAngle(0.0) == 360.0
  {
  }

  class CardFlipPageTransformer {
    var isScalable: bool
    var flipOrientation: int

    ghost predicate Valid()
      reads this
    {
      flipOrientation == HORIZONTAL || flipOrientation == VERTICAL
    }

    /** A new transformer is scalable and flips vertically. */
    constructor ()
      ensures Valid() && isScalable && flipOrientation == VERTICAL
    {
      isScalable := true;
      flipOrientation := VERTICAL;
    }

    function GetFlipOrientation(): (o: int)
      reads this
      requires Valid()
      ensures o == HORIZONTAL || o == VERTICAL
    {
      flipOrientation
    }

    /** Any value above 1 selects VERTICAL, everything else HORIZONTAL. */
    method SetFlipOrientation(flipOrientation: int)
      modifies this`flipOrientation
      ensures Valid()
      ensures this.flipOrientation == if flipOrientation > 1 then VERTICAL else HORIZONTAL
    {
      this.flipOrientation := if flipOrientation > 1 then VERTICAL else HORIZONTAL;
    }

    method TransformPage(page: ViewPage, position: real)
      modifies page
      ensures page.Props() == Flipped(old(page.Props()), position, page.left, isScalable, flipOrientation)
    {
      var percentage := 1.0 - Abs(position);
      page.cameraDistance := 120.0;
      SetVisibility(page, position);
      SetTranslation(page);
      SetSize(page, position, percentage);
      SetRotation(page, position, percentage);
    }

    method SetVisibility(page: ViewPage, position: real)
      modifies page
      ensures page.Props()
           == old(page.Props()).(visibility := if -0.5 < position < 0.5 then Visible else Invisible)
    {
      if position < 0.5 && position > -0.5 {
        page.SetVisibility(Visible);
      } else {
        page.SetVisibility(Invisible);
      }
    }

    method SetTranslation(page: ViewPage)
      modifies page
      ensures page.Props() == old(page.Props()).(translationX := -(page.left as real))
    {
      var scroll := -page.left;
      page.translationX := scroll as real;
    }

    method SetSize(page: ViewPage, position: real, percentage: real)
      requires percentage == 1.0 - Abs(position)
      modifies page
      ensures isScalable ==>
        page.Props() == old(page.Props()).(scaleX := FlipScale(position), scaleY := FlipScale(position))
      ensures !isScalable ==> page.Props() == old(page.Props())
    {
      if !isScalable {
        return;
      }
      page.scaleX := if position != 0.0 && position != 1.0 then percentage else 1.0;
      page.scaleY := if position != 0.0 && position != 1.0 then percentage else 1.0;
    }

    method SetRotation(page: ViewPage, position: real, percentage: real)
      requires percentage == 1.0 - Abs(position)
      modifies page
      ensures flipOrientation == VERTICAL ==>
        page.Props() == old(page.Props()).(rotationY := FlipAngle(position))
      ensures flipOrientation != VERTICAL ==>
        page.Props() == old(page.Props()).(rotationX := FlipAngle(position))
    {
      if flipOrientation == VERTICAL {
        if position > 0.0 {
          page.rotationY := -180.0 * (percentage + 1.0);
        } else {
          page.rotationY := 180.0 * (percentage + 1.0);
        }
      } else {
        if position > 0.0 {
          page.rotationX := -180.0 * (percentage + 1.0);
        } else {
          page.rotationX := 180.0 * (percentage + 1.0);
        }
      }
    }
  }
}
