/**
 * The page handed to every transformer: `ViewPage` of ViewPager.kt.
 *
 * The source delegates each layer property to the host toolkit's graphics
 * layer; here those properties are plain fields of the page object. The
 * transform origin is kept as the pair of pivot fractions, exactly as the
 * layer stores it, and `pivotX`/`pivotY` are derived from it through the
 * page's width and height.
 */
module Pages {

  /** Android's view visibility flags (View.VISIBLE, View.INVISIBLE, View.GONE). */
  datatype Visibility = Visible | Invisible | Gone
  {
    /** The integer constant the host framework uses for the flag. */
    function Code(): (c: int)
      ensures c == 0 <==> this == Visible
      ensures c in {0, 4, 8}
    {
      match this
      case Visible => 0
      case Invisible => 4
      case Gone => 8
    }
  }

  /** Math.abs on a position. */
  function Abs(x: real): (r: real)
    ensures r >= 0.0 && (r == x || r == -x)
  {
    if x < 0.0 then -x else x
  }

  /**
   * A snapshot of every property a transformer may write on a page.
   * `visibility` is the host's per-page visibility state, the value the
   * page's visibility callback last delivered.
   */
  datatype PageProps = PageProps(
    scaleX: real,
    scaleY: real,
    translationX: real,
    translationY: real,
    rotationX: real,
    rotationY: real,
    rotation: real,
    cameraDistance: real,
    alpha: real,
    pivotFractionX: real,
    pivotFractionY: real,
    visibility: Visibility)

  class ViewPage {
    const width: int
    const height: int
    /** The page's left edge, read by the card-flip transformer. */
    const left: int

    var scaleX: real
    var scaleY: real
    var translationX: real
    var translationY: real
    var rotationX: real
    var rotationY: real
    var rotation: real
    var cameraDistance: real
    var alpha: real
    var pivotFractionX: real
    var pivotFractionY: real
    /** The host's visibility state for this page, reached only through the callback. */
    var shown: Visibility

    constructor (width: int, height: int, left: int, layer: PageProps)
      ensures this.width == width && this.height == height && this.left == left
      ensures Props() == layer
    {
      this.width, this.height, this.left := width, height, left;
      scaleX, scaleY := layer.scaleX, layer.scaleY;
      translationX, translationY := layer.translationX, layer.translationY;
      rotationX, rotationY, rotation := layer.rotationX, layer.rotationY, layer.rotation;
      cameraDistance, alpha := layer.cameraDistance, layer.alpha;
      pivotFractionX, pivotFractionY := layer.pivotFractionX, layer.pivotFractionY;
      shown := layer.visibility;
    }

    /** The page's writable state as a value. */
    function Props(): PageProps
      reads this
    {
      PageProps(scaleX, scaleY, translationX, translationY, rotationX, rotationY, rotation,
                cameraDistance, alpha, pivotFractionX, pivotFractionY, shown)
    }

    /** Overwrites every writable property at once (what a transformer hook leaves behind). */
    method Assign(q: PageProps)
      modifies this
      ensures Props() == q
    {
      scaleX, scaleY := q.scaleX, q.scaleY;
      translationX, translationY := q.translationX, q.translationY;
      rotationX, rotationY, rotation := q.rotationX, q.rotationY, q.rotation;
      cameraDistance, alpha := q.cameraDistance, q.alpha;
      pivotFractionX, pivotFractionY := q.pivotFractionX, q.pivotFractionY;
      shown := q.visibility;
    }

    /** The pivot in pixels along x: the stored fraction times the width. */
    function PivotX(): (px: real)
      reads this
      ensures width != 0 ==> px / width as real == pivotFractionX
    {
      pivotFractionX * width as real
    }

    /** Stores the pixel pivot as a fraction of the width; only the x fraction changes. */
    method SetPivotX(value: real)
      requires width != 0
      modifies this
      ensures Props() == old(Props()).(pivotFractionX := value / width as real)
      ensures PivotX() == value
    {
      pivotFractionX := value / width as real;
    }

    /** The pivot in pixels along y: the stored fraction times the height. */
    function PivotY(): (py: real)
      reads this
      ensures height != 0 ==> py / height as real == pivotFractionY
    {
      pivotFractionY * height as real
    }

    /** Stores the pixel pivot as a fraction of the height; only the y fraction changes. */
    method SetPivotY(value: real)
      requires height != 0
      modifies this
      ensures Props() == old(Props()).(pivotFractionY := value / height as real)
      ensures PivotY() == value
    {
      pivotFractionY := value / height as real;
    }

    /** The stored x fraction; scaled by the width it is the pixel pivot. */
    function PivotFractionX(): (f: real)
      reads this
      ensures f * width as real == PivotX()
    {
      pivotFractionX
    }

    method SetPivotFractionX(value: real)
      modifies this
      ensures Props() == old(Props()).(pivotFractionX := value)
      ensures PivotFractionX() == value
    {
      pivotFractionX := value;
    }

    /** The stored y fraction; scaled by the height it is the pixel pivot. */
    function PivotFractionY(): (f: real)
      reads this
      ensures f * height as real == PivotY()
    {
      pivotFractionY
    }

    method SetPivotFractionY(value: real)
      modifies this
      ensures Props() == old(Props()).(pivotFractionY := value)
      ensures PivotFractionY() == value
    {
      pivotFractionY := value;
    }

    /**
     * Reading the visibility property. The property's setter never stores
     * into its backing field, so the getter always yields that field's
     * initial value 0, which is View.VISIBLE.
     */
    function ReadVisibility(): (v: Visibility)
      ensures v.Code() == 0
    {
      Visible
    }

    /**
     * Writing the visibility property forwards the flag to the host's
     * callback, which records it as the page's visibility state; nothing
     * else changes and reading the property back still yields VISIBLE.
     */
    method SetVisibility(v: Visibility)
      modifies this
      ensures Props() == old(Props()).(visibility := v)
      ensures ReadVisibility() == Visible
    {
      shown := v;
    }
  }
}
