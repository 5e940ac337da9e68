/**
 * `ABaseTransformer` of BaseTransformer.kt: the template every derived
 * transformer runs through. The position is clamped, the page is reset by
 * the pre-transform hook, then the subclass's own `onTransform` runs, then
 * the (empty) post-transform hook.
 */
module BaseTransformers {
  import opened Pages

  /** A 32-bit float position as far as clamping cares: NaN, or a real value. */
  datatype Float = NaN | Num(value: real)

  /** The float comparison `x < y` (false whenever x is NaN). */
  predicate Less(x: Float, y: real)
  {
    x.Num? && x.value < y
  }

  /** The float comparison `x > y` (false whenever x is NaN). */
  predicate Greater(x: Float, y: real)
  {
    x.Num? && x.value > y
  }

  /** Clamps a reported position into -1..1, reading NaN as 0. */
  function ClampPosition(position: Float): (r: real)
    ensures -1.0 <= r <= 1.0
    ensures position.Num? && -1.0 <= position.value <= 1.0 ==> r == position.value
    ensures position.Num? && position.value < -1.0 ==> r == -1.0
    ensures position.Num? && position.value > 1.0 ==> r == 1.0
    ensures position.NaN? ==> r == 0.0
  {
    if Less(position, -1.0) then -1.0
    else if Greater(position, 1.0) then 1.0
    else if position.NaN? then 0.0
    else position.value
  }

  /** Clamping twice is clamping once. */
  lemma ClampIdempotent(position: Float)
    ensures ClampPosition(Num(ClampPosition(position))) == ClampPosition(position)
  {
  }

  /** The companion `min(value, min)`: despite its name it never returns less than `min`. */
  function Min(value: real, min: real): (r: real)
    ensures r >= min && r >= value
    ensures r == value || r == min
    ensures value >= min ==> r == value
  {
    if value < min then min else value
  }

  /**
   * The two overridable switches: `isPagingEnabled` (default false) and
   * `hideOffscreenPages()` (default true).
   */
  datatype Config = Config(pagingEnabled: bool, hideOffscreen: bool)

  const DefaultConfig := Config(pagingEnabled := false, hideOffscreen := true)

  /** What `onPreTransform` leaves on a page of the given width and height. */
  function PreTransformed(p: PageProps, width: int, height: int, position: real, cfg: Config): (r: PageProps)
    requires width != 0 && height != 0
    // rotations, scales, pivots and vertical translation are reset
    ensures r.rotationX == 0.0 && r.rotationY == 0.0 && r.rotation == 0.0
    ensures r.scaleX == 1.0 && r.scaleY == 1.0
    ensures r.pivotFractionX == 0.0 && r.pivotFractionY == 0.0 && r.translationY == 0.0
    // horizontal translation cancels the pager's own movement unless paging is enabled
    ensures r.translationX == if cfg.pagingEnabled then 0.0 else -(width as real) * position
    // pages at or beyond one page away are hidden, if offscreen pages are hidden at all
    ensures cfg.hideOffscreen ==> (r.alpha == 0.0 <==> position <= -1.0 || position >= 1.0)
    ensures r.alpha == 0.0 || r.alpha == 1.0
    ensures !cfg.hideOffscreen ==> r.alpha == 1.0
    // camera distance and visibility are left alone
    ensures r.cameraDistance == p.cameraDistance && r.visibility == p.visibility
  {
    p.(rotationX := 0.0, rotationY := 0.0, rotation := 0.0,
       scaleX := 1.0, scaleY := 1.0,
       pivotFractionX := 0.0 / width as real, pivotFractionY := 0.0 / height as real,
       translationY := 0.0,
       translationX := if cfg.pagingEnabled then 0.0 else -(width as real) * position,
       alpha := if cfg.hideOffscreen then (if position <= -1.0 || position >= 1.0 then 0.0 else 1.0) else 1.0)
  }

  /** The reset forgets the page's earlier state: only camera distance and visibility survive it. */
  lemma PreTransformForgets(p: PageProps, q: PageProps, width: int, height: int, position: real, cfg: Config)
    requires width != 0 && height != 0
    ensures PreTransformed(p, width, height, position, cfg).(cameraDistance := q.cameraDistance, visibility := q.visibility)
         == PreTransformed(q, width, height, position, cfg)
  {
  }

  /** Resetting twice is resetting once. */
  lemma PreTransformIdempotent(p: PageProps, width: int, height: int, position: real, cfg: Config)
    requires width != 0 && height != 0
    ensures var once := PreTransformed(p, width, height, position, cfg);
      PreTransformed(once, width, height, position, cfg) == once
  {
  }

  /**
   * After clamping, a page is hidden by the default configuration exactly
   * when the reported position is a number at least one page away; a NaN
   * position is shown as the centre page.
   */
  lemma HiddenIffOffscreen(p: PageProps, width: int, height: int, position: Float)
    requires width != 0 && height != 0
    ensures PreTransformed(p, width, height, ClampPosition(position), DefaultConfig).alpha == 0.0
        <==> position.Num? && (position.value <= -1.0 || position.value >= 1.0)
  {
    var c := ClampPosition(position);
    if position.Num? && position.value <= -1.0 {
      assert c == -1.0;
    } else if position.Num? && position.value >= 1.0 {
      assert c == 1.0;
    } else {
      assert -1.0 < c < 1.0;
    }
  }

  /** `onPreTransform`: resets the page's properties field by field. */
  method OnPreTransform(cfg: Config, page: ViewPage, position: real)
    requires page.width != 0 && page.height != 0
    modifies page
    ensures page.Props() == PreTransformed(old(page.Props()), page.width, page.height, position, cfg)
  {
    var width := page.width as real;
    page.rotationX := 0.0;
    page.rotationY := 0.0;
    page.rotation := 0.0;
    page.scaleX := 1.0;
    page.scaleY := 1.0;
    page.SetPivotX(0.0);
    page.SetPivotY(0.0);
    page.translationY := 0.0;
    page.translationX := if cfg.pagingEnabled then 0.0 else -width * position;
    if cfg.hideOffscreen {
      page.alpha := if position <= -1.0 || position >= 1.0 then 0.0 else 1.0;
    } else {
      page.alpha := 1.0;
    }
  }

  /** `onPostTransform`: the base class does nothing here. */
  method OnPostTransform(page: ViewPage, position: real)
    ensures page.Props() == old(page.Props())
  {
  }

  /**
   * `transformPage`: the same clamped position goes to the pre-transform
   * reset, then to the subclass's `onTransform` (given here as a function
   * of the page's properties), then to the post-transform hook.
   */
  method TransformPage(cfg: Config, onTransform: (PageProps, real) -> PageProps, page: ViewPage, position: Float)
    requires page.width != 0 && page.height != 0
    modifies page
    ensures page.Props()
         == onTransform(PreTransformed(old(page.Props()), page.width, page.height, ClampPosition(position), cfg),
                        ClampPosition(position))
  {
    var clampedPosition := ClampPosition(position);
    OnPreTransform(cfg, page, clampedPosition);
    page.Assign(onTransform(page.Props(), clampedPosition));
    OnPostTransform(page, clampedPosition);
  }
}
