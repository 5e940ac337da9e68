/** `DefaultTransformer` of DefaultTransformer.kt: every page is simply shown. */
module DefaultTransformers {
  import opened Pages

  /** What one call of `transformPage` leaves on a page: only the visibility changes, to VISIBLE. */
  function Shown(p: PageProps, position: real): (r: PageProps)
    ensures r.visibility == Visible
    ensures r.(visibility := p.visibility) == p
  {
    p.(visibility := Visible)
  }

  /** The position plays no part. */
  lemma PositionIgnored(p: PageProps, a: real, b: real)
    ensures Shown(p, a) == Shown(p, b)
  {
  }

  /** Showing a page twice is showing it once. */
  lemma ShownIdempotent(p: PageProps, a: real, b: real)
    ensures Shown(Shown(p, a), b) == Shown(p, a)
  {
  }

  method TransformPage(view: ViewPage, position: real)
    modifies view
    ensures view.Props() == Shown(old(view.Props()), position)
  {
    view.SetVisibility(Visible);
  }
}
