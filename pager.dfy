/**
 * The pager's offset and settle state machine (`ViewPagerState` of
 * ViewPager.kt) and the placement arithmetic of its layout pass.
 *
 * A page's position is its index plus the drag offset measured in pages:
 * 0 is front and centre, 1 one page to the right, -1 one page to the left.
 * Animations of the drag offset are modelled as instantaneous assignments
 * of their target value.
 */
module Pager {
  import opened Wrappers
  import Pages

  datatype Orientation = Horizontal | Vertical

  /** The measured size of a page, in pixels. */
  datatype Size = Size(width: real, height: real)

  /** The extent of one page along the paging axis; 0 while no size is known. */
  function TargetBaseSize(orientation: Orientation, viewSize: Option<Size>): (base: real)
    ensures viewSize == None ==> base == 0.0
    ensures viewSize.Some? && orientation == Vertical ==> base == viewSize.value.height
    ensures viewSize.Some? && orientation == Horizontal ==> base == viewSize.value.width
  {
    if orientation == Vertical then
      (match viewSize case Some(s) => s.height case None => 0.0)
    else
      (match viewSize case Some(s) => s.width case None => 0.0)
  }

  /** The fractional position of page `index` for a drag offset and a page extent. */
  function PagePosition(index: int, offset: real, base: real): real
    requires base > 0.0
  {
    index as real + offset / base
  }

  /** Adjacent pages are exactly one page apart, and the spacing is the index difference. */
  lemma PositionsOnePageApart(i: int, j: int, offset: real, base: real)
    requires base > 0.0
    ensures PagePosition(i + 1, offset, base) == PagePosition(i, offset, base) + 1.0
    ensures PagePosition(j, offset, base) - PagePosition(i, offset, base) == (j - i) as real
  {
  }

  /** The settle window: the closed range -0.5..0.5 that the settle rule tests positions against. */
  predicate NearCentre(position: real)
  {
    -0.5 <= position <= 0.5
  }

  /** The offset that puts page `index` front and centre. */
  function CentringOffset(index: int, base: real): (offset: real)
    requires base > 0.0
    ensures PagePosition(index, offset, base) == 0.0
  {
    -(index as real) * base
  }

  /** The first index in `lo` until `hi` whose page is within half a page of the centre. */
  function FirstNearCentre(lo: int, hi: int, offset: real, base: real): (r: Option<int>)
    requires base > 0.0
    ensures r.Some? ==> lo <= r.value < hi && NearCentre(PagePosition(r.value, offset, base))
    ensures r.Some? ==> forall j :: lo <= j < r.value ==> !NearCentre(PagePosition(j, offset, base))
    ensures r.None? ==> forall j :: lo <= j < hi ==> !NearCentre(PagePosition(j, offset, base))
    decreases hi - lo
  {
    if lo >= hi then None
    else if NearCentre(PagePosition(lo, offset, base)) then Some(lo)
    else FirstNearCentre(lo + 1, hi, offset, base)
  }

  /**
   * The indices the settle rule scans, as a half-open range: from the
   * current page up to the item count when the current page sits left of
   * centre, otherwise from 0 up to and including the current page.
   */
  function SearchRange(current: int, count: int, offset: real, base: real): (range: (int, int))
    requires base > 0.0
    ensures PagePosition(current, offset, base) < 0.0 ==> range == (current, count)
    ensures PagePosition(current, offset, base) >= 0.0 ==> range == (0, current + 1)
  {
    if PagePosition(current, offset, base) < 0.0 then (current, count) else (0, current + 1)
  }

  /** The page the pager settles on when a drag ends. */
  function Settle(current: int, count: int, offset: real, base: real): (page: int)
    requires base > 0.0
    // the search runs one way from the current page
    ensures PagePosition(current, offset, base) < 0.0 ==> current <= page
    ensures PagePosition(current, offset, base) >= 0.0 ==> page <= current
    // a valid current page stays valid
    ensures 0 <= current < count ==> 0 <= page < count
    // a page other than the current one is chosen only when it is near the centre
    ensures page == current || NearCentre(PagePosition(page, offset, base))
    // the first scanned page near the centre wins
    ensures var (lo, hi) := SearchRange(current, count, offset, base);
      (exists k :: lo <= k < hi && NearCentre(PagePosition(k, offset, base))) ==>
        lo <= page < hi && NearCentre(PagePosition(page, offset, base)) &&
        forall j :: lo <= j < page ==> !NearCentre(PagePosition(j, offset, base))
    // and with no such page the current page is kept
    ensures var (lo, hi) := SearchRange(current, count, offset, base);
      (forall k :: lo <= k < hi ==> !NearCentre(PagePosition(k, offset, base))) ==> page == current
  {
    var (lo, hi) := SearchRange(current, count, offset, base);
    match FirstNearCentre(lo, hi, offset, base)
    case Some(index) => index
    case None => current
  }

  /** A page within half a page of the centre is a page nearest the centre. */
  lemma NearCentreIsNearest(k: int, j: int, offset: real, base: real)
    requires base > 0.0
    requires NearCentre(PagePosition(k, offset, base))
    ensures Pages.Abs(PagePosition(k, offset, base)) <= Pages.Abs(PagePosition(j, offset, base))
  {
    PositionsOnePageApart(k, j, offset, base);
  }

  /** At most two pages are near the centre at once, and two only when they straddle it exactly. */
  lemma NearCentreAtMostTwo(i: int, j: int, offset: real, base: real)
    requires base > 0.0
    requires i < j
    requires NearCentre(PagePosition(i, offset, base)) && NearCentre(PagePosition(j, offset, base))
    ensures j == i + 1
    ensures PagePosition(i, offset, base) == -0.5 && PagePosition(j, offset, base) == 0.5
  {
    PositionsOnePageApart(i, j, offset, base);
  }

  /**
   * Completeness of the settle rule: from a valid current page, whenever
   * some page of the pager is within half a page of the centre, the rule
   * finds one (so it never strands the pager between pages).
   */
  lemma SettleFindsCentrePage(current: int, count: int, offset: real, base: real, j: int)
    requires base > 0.0
    requires 0 <= current < count
    requires 0 <= j < count && NearCentre(PagePosition(j, offset, base))
    ensures NearCentre(PagePosition(Settle(current, count, offset, base), offset, base))
  {
    PositionsOnePageApart(current, j, offset, base);
    var (lo, hi) := SearchRange(current, count, offset, base);
    assert lo <= j < hi;
  }

  /**
   * Settling lands on a page nearest the centre whenever some page of the
   * pager lies within half a page of it.
   */
  lemma SettleIsNearest(current: int, count: int, offset: real, base: real, j: int, i: int)
    requires base > 0.0
    requires 0 <= current < count
    requires 0 <= j < count && NearCentre(PagePosition(j, offset, base))
    ensures Pages.Abs(PagePosition(Settle(current, count, offset, base), offset, base))
         <= Pages.Abs(PagePosition(i, offset, base))
  {
    SettleFindsCentrePage(current, count, offset, base, j);
    NearCentreIsNearest(Settle(current, count, offset, base), i, offset, base);
  }

  /**
   * Without a page in the window the current page is kept even when another
   * page is nearer: dragged far right of page 0, the pager snaps back to page 1.
   */
  lemma SettleKeepsFartherPage()
    ensures Settle(1, 3, 180.0, 100.0) == 1
    ensures Pages.Abs(PagePosition(0, 180.0, 100.0)) < Pages.Abs(PagePosition(1, 180.0, 100.0))
  {
    assert PagePosition(1, 180.0, 100.0) == 2.8;
    assert PagePosition(0, 180.0, 100.0) == 1.8;
    assert FirstNearCentre(0, 2, 180.0, 100.0) == None;
  }

  /**
   * As written, initOffset snaps the drag offset to +base * currentPage,
   * the opposite sign of the settle target; the current page then sits at
   * position 2 * currentPage, off centre for every page but 0.
   */
  lemma InitOffsetOffCentre(current: int, base: real)
    requires base > 0.0
    ensures PagePosition(current, base * current as real, base) == 2.0 * current as real
    ensures current != 0 ==> !NearCentre(PagePosition(current, base * current as real, base))
  {
    assert (base * current as real) / base == current as real;
  }

  /** Two drags in succession move the offset as one drag by their sum. */
  lemma DragsCompose(offset: real, d1: real, d2: real, base: real, index: int)
    requires base > 0.0
    ensures PagePosition(index, offset + d1 + d2, base)
         == PagePosition(index, offset, base) + (d1 + d2) / base
  {
  }

  class ViewPagerState {
    var currentPage: int
    var itemCount: int
    var dragOffset: real
    var orientation: Orientation
    var viewSize: Option<Size>

    /** A fresh state: no items, no drag, no measured size yet. */
    constructor (currentPage: int, orientation: Orientation)
      ensures this.currentPage == currentPage && this.orientation == orientation
      ensures itemCount == 0 && dragOffset == 0.0 && viewSize == None
    {
      this.currentPage := currentPage;
      this.orientation := orientation;
      itemCount := 0;
      dragOffset := 0.0;
      viewSize := None;
    }

    function BaseSize(): real
      reads this
    {
      TargetBaseSize(orientation, viewSize)
    }

    /** The position of page `index` under the current drag offset. */
    function Calculate(index: int): (position: real)
      reads this
      requires BaseSize() > 0.0
      ensures position - PagePosition(0, dragOffset, BaseSize()) == index as real
      ensures position == 0.0 <==> dragOffset == CentringOffset(index, BaseSize())
    {
      PagePosition(index, dragOffset, BaseSize())
    }

    /** Snaps the drag offset to base * currentPage, as the source does. */
    method InitOffset()
      modifies this`dragOffset
      ensures dragOffset == BaseSize() * currentPage as real
    {
      dragOffset := BaseSize() * currentPage as real;
    }

    /** The evidently intended initOffset: snap so that the current page is front and centre. */
    method InitOffsetCentred()
      requires BaseSize() > 0.0
      modifies this`dragOffset
      ensures dragOffset == CentringOffset(currentPage, BaseSize())
      ensures Calculate(currentPage) == 0.0
    {
      dragOffset := -(currentPage as real) * BaseSize();
    }

    /** Accumulates one drag delta. */
    method UpdateOffset(offset: real)
      modifies this`dragOffset
      ensures dragOffset == old(dragOffset) + offset
    {
      dragOffset := dragOffset + offset;
    }

    /** The settle rule run when a drag stops. */
    method UpdatePage()
      requires BaseSize() > 0.0
      modifies this`currentPage, this`dragOffset
      ensures currentPage == Settle(old(currentPage), itemCount, old(dragOffset), BaseSize())
      ensures dragOffset == CentringOffset(currentPage, BaseSize())
      ensures Calculate(currentPage) == 0.0
    {
      var base := BaseSize();
      var lo, hi := if Calculate(currentPage) < 0.0 then currentPage else 0,
                    if Calculate(currentPage) < 0.0 then itemCount else currentPage + 1;
      assert (lo, hi) == SearchRange(currentPage, itemCount, dragOffset, base);
      var index := lo;
      while index < hi
        invariant dragOffset == old(dragOffset) && currentPage == old(currentPage)
        invariant FirstNearCentre(index, hi, dragOffset, base) == FirstNearCentre(lo, hi, dragOffset, base)
        decreases hi - index
      {
        if NearCentre(Calculate(index)) {
          currentPage := index;
          dragOffset := CentringOffset(index, base);
          return;
        }
        index := index + 1;
      }
      dragOffset := CentringOffset(currentPage, base);
    }
  }

  /** A client's view of two drags followed by a settle. */
  method DragTwiceThenSettle(state: ViewPagerState, d1: real, d2: real)
    requires state.BaseSize() > 0.0
    modifies state`dragOffset, state`currentPage
    ensures state.currentPage
         == Settle(old(state.currentPage), state.itemCount, old(state.dragOffset) + (d1 + d2), state.BaseSize())
    ensures state.Calculate(state.currentPage) == 0.0
  {
    state.UpdateOffset(d1);
    state.UpdateOffset(d2);
    state.UpdatePage();
  }

  /** Kotlin's Int division by 2, which truncates toward zero. */
  function HalfTowardZero(a: int): (h: int)
    ensures a >= 0 ==> 0 <= 2 * h <= a <= 2 * h + 1
    ensures a < 0 ==> 2 * h - 1 <= a <= 2 * h <= 0
  {
    if a >= 0 then a / 2 else -((-a) / 2)
  }

  /** Kotlin's Float.toInt for a finite value: truncation toward zero. */
  function TruncateToInt(x: real): (n: int)
    ensures x >= 0.0 ==> 0 <= n && n as real <= x < n as real + 1.0
    ensures x < 0.0 ==> n <= 0 && n as real - 1.0 < x <= n as real
  {
    if x >= 0.0 then x.Floor else -((-x).Floor)
  }

  lemma TruncateMonotone(x: real, y: real)
    requires x <= y
    ensures TruncateToInt(x) <= TruncateToInt(y)
  {
    if x >= 0.0 {
    } else if y < 0.0 {
      assert (-y).Floor <= (-x).Floor;
    }
  }

  datatype Offset = Offset(x: int, y: int)

  /**
   * Where the layout pass places a page: centred in the pager, then shifted
   * along the paging axis by the page's extent times its position.
   */
  function PlaceOffset(orientation: Orientation, maxWidth: int, maxHeight: int,
                       width: int, height: int, position: real): (o: Offset)
    // the cross axis stays centred
    ensures orientation == Horizontal ==> o.y == HalfTowardZero(maxHeight - height)
    ensures orientation == Vertical ==> o.x == HalfTowardZero(maxWidth - width)
    // the paging axis moves by extent * position, truncated toward the centre
    ensures orientation == Horizontal ==>
      o.x - HalfTowardZero(maxWidth - width) == TruncateToInt(width as real * position)
    ensures orientation == Vertical ==>
      o.y - HalfTowardZero(maxHeight - height) == TruncateToInt(height as real * position)
    // so the shift has the sign of extent * position and is within one pixel of it
    ensures orientation == Horizontal ==>
      var shift := o.x - HalfTowardZero(maxWidth - width);
      0.0 <= shift as real * (width as real * position)
    ensures orientation == Vertical ==>
      var shift := o.y - HalfTowardZero(maxHeight - height);
      0.0 <= shift as real * (height as real * position)
    ensures orientation == Horizontal ==>
      var shift := o.x - HalfTowardZero(maxWidth - width);
      Pages.Abs(shift as real) <= Pages.Abs(width as real * position) < Pages.Abs(shift as real) + 1.0
    ensures orientation == Vertical ==>
      var shift := o.y - HalfTowardZero(maxHeight - height);
      Pages.Abs(shift as real) <= Pages.Abs(height as real * position) < Pages.Abs(shift as real) + 1.0
    // the page at position 0 is exactly centred
    ensures position == 0.0 ==> o == Offset(HalfTowardZero(maxWidth - width), HalfTowardZero(maxHeight - height))
  {
    var offsetX := HalfTowardZero(maxWidth - width);
    var offsetY := HalfTowardZero(maxHeight - height);
    if orientation == Horizontal then
      Offset(offsetX + TruncateToInt(width as real * position), offsetY)
    else
      Offset(offsetX, offsetY + TruncateToInt(height as real * position))
  }

  /** A non-negative extent keeps the order of positions after scaling and truncation. */
  lemma ShiftMonotone(extent: int, p: real, q: real)
    requires extent >= 0 && p <= q
    ensures TruncateToInt(extent as real * p) <= TruncateToInt(extent as real * q)
  {
    var k := extent as real;
    assert k * q - k * p == k * (q - p);
    assert k * (q - p) >= 0.0;
    TruncateMonotone(k * p, k * q);
  }

  /** Pages further right (or down) are never placed further left (or up). */
  lemma PlacementMonotone(orientation: Orientation, maxWidth: int, maxHeight: int,
                          width: int, height: int, p: real, q: real)
    requires width >= 0 && height >= 0 && p <= q
    ensures PlaceOffset(orientation, maxWidth, maxHeight, width, height, p).x
         <= PlaceOffset(orientation, maxWidth, maxHeight, width, height, q).x
    ensures PlaceOffset(orientation, maxWidth, maxHeight, width, height, p).y
         <= PlaceOffset(orientation, maxWidth, maxHeight, width, height, q).y
  {
    ShiftMonotone(width, p, q);
    ShiftMonotone(height, p, q);
  }
}
