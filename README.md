# compose-viewpager: a Dafny model of the pager state machine and its page transformers

This project models the logic core of a paged carousel widget for a declarative
UI toolkit, over Dafny `real` numbers in place of 32-bit floats:

- **The pager state** (`ViewPagerState`, module `Pager`). It holds the current page, the item
  count, a drag offset in pixels and the measured page size. A page's position
  is `index + dragOffset / base`: 0 is front and centre, ±1 is one page to either side.
  Drags accumulate into the offset. When a drag stops, the settle rule scans one
  way from the current page for the first page within half a page of the centre.
  It makes that page current and moves the offset so that the page sits at position 0.
  The placement arithmetic of the layout pass is modelled too. It centres each page, then
  shifts it along the paging axis by its extent times its position, truncated to pixels.
- **The page** (`ViewPage`, module `Pages`). This is a class whose layer properties are plain fields.
  The pivots are stored as fractions of the page's width and height.
  The visibility setter does not store anything: it forwards the flag to the host's callback.
- **The page transformers**. Each one is a method that writes the page's fields
  in the source's order. Each is proved equal to a pure specification function on a `PageProps`
  record, and the properties the source promises are proved about those functions:
  `ABaseTransformer` (module `BaseTransformers`), `CardFlipPageTransformer`
  (module `CardFlip`), `Pager2_SpinnerTransformer` (module `Spinner`) and
  `DefaultTransformer` (module `DefaultTransformers`).

Animations of the drag offset (`snapTo`, `animateTo`) are modelled as instantaneous
assignments of their target value.

## Model

| member | source | states |
|---|---|---|
| `Pager.TargetBaseSize` | viewpager/src/main/java/com/doool/viewpager/ViewPager.kt:49-52 | the page extent is the view height when vertical, the width otherwise, and 0 while no size is known |
| `Pager.PositionsOnePageApart` | viewpager/src/main/java/com/doool/viewpager/ViewPager.kt:54-56 | adjacent pages are exactly one position apart; positions differ by the index difference |
| `Pager.ViewPagerState.Calculate` | viewpager/src/main/java/com/doool/viewpager/ViewPager.kt:54-56 | a page's position is its index plus page 0's position, and is 0 exactly when the offset is that page's centring offset |
| `Pager.ViewPagerState.constructor` | viewpager/src/main/java/com/doool/viewpager/ViewPager.kt:37-47 | a new state keeps the given current page, has no items, no drag and no measured size |
| `Pager.CentringOffset` | viewpager/src/main/java/com/doool/viewpager/ViewPager.kt:85 | the settle target `-index * base` puts that page at position 0 |
| `Pager.FirstNearCentre` | viewpager/src/main/java/com/doool/viewpager/ViewPager.kt:80-89 | the scan returns the first index of the range whose position lies in the closed window -0.5..0.5, or nothing when no index of the range does |
| `Pager.SearchRange` | viewpager/src/main/java/com/doool/viewpager/ViewPager.kt:75-78 | left of centre the scan covers currentPage until itemCount, otherwise 0 through currentPage |
| `Pager.Settle` | viewpager/src/main/java/com/doool/viewpager/ViewPager.kt:74-94 | the new page is at or above the old one when the old page sat left of centre and at or below it otherwise; a valid page stays in 0..itemCount-1; the first scanned page near the centre wins; with none the page is kept |
| `Pager.NearCentreIsNearest` | viewpager/src/main/java/com/doool/viewpager/ViewPager.kt:80-87 | a page inside the settle window is at least as close to the centre as every other page |
| `Pager.NearCentreAtMostTwo` | viewpager/src/main/java/com/doool/viewpager/ViewPager.kt:81 | two pages are in the window together only when they are neighbours at exactly -0.5 and 0.5 |
| `Pager.SettleFindsCentrePage` | viewpager/src/main/java/com/doool/viewpager/ViewPager.kt:74-89 | from a valid current page, if any page lies in the window the settle rule lands on a page in the window |
| `Pager.SettleIsNearest` | viewpager/src/main/java/com/doool/viewpager/ViewPager.kt:74-89 | from a valid current page, whenever some page lies within half a page of the centre, the settled page is at least as near the centre as every page |
| `Pager.SettleKeepsFartherPage` | viewpager/src/main/java/com/doool/viewpager/ViewPager.kt:74-93 | without a page in the window the current page is kept even when another is nearer: with offset 180 and extent 100, page 1 (position 2.8) is kept over page 0 (position 1.8) |
| `Pager.ViewPagerState.UpdatePage` | viewpager/src/main/java/com/doool/viewpager/ViewPager.kt:74-94 | the loop leaves currentPage equal to `Settle` of the old state and the offset at the centring target, so the current page is at position 0 |
| `Pager.ViewPagerState.UpdateOffset` | viewpager/src/main/java/com/doool/viewpager/ViewPager.kt:68-72 | a drag delta is added to the offset |
| `Pager.DragsCompose` | viewpager/src/main/java/com/doool/viewpager/ViewPager.kt:68-72 | two drags move every position as one drag by their sum |
| `Pager.DragTwiceThenSettle` | viewpager/src/main/java/com/doool/viewpager/ViewPager.kt:68-94 | two drags then a settle give the settle of the summed drag and a centred current page |
| `Pager.ViewPagerState.InitOffset` | viewpager/src/main/java/com/doool/viewpager/ViewPager.kt:62-66 | as written: the offset snaps to `base * currentPage` |
| `Pager.InitOffsetOffCentre` | viewpager/src/main/java/com/doool/viewpager/ViewPager.kt:62-66 | after that snap the current page sits at position `2 * currentPage`, outside the settle window for every page but 0 |
| `Pager.ViewPagerState.InitOffsetCentred` | viewpager/src/main/java/com/doool/viewpager/ViewPager.kt:62-66 | corrected: the offset snaps to the settle target and the current page is at position 0 |
| `Pager.HalfTowardZero` | viewpager/src/main/java/com/doool/viewpager/ViewPager.kt:177-178 | Int division by 2 truncates toward zero |
| `Pager.TruncateToInt` | viewpager/src/main/java/com/doool/viewpager/ViewPager.kt:181-182 | Float-to-Int conversion truncates toward zero and is within one of its input |
| `Pager.TruncateMonotone` | viewpager/src/main/java/com/doool/viewpager/ViewPager.kt:181-182 | that truncation is monotone |
| `Pager.ShiftMonotone` | viewpager/src/main/java/com/doool/viewpager/ViewPager.kt:181-182 | the pixel shift `(extent * position).toInt()` keeps the order of positions for a non-negative extent |
| `Pager.PlaceOffset` | viewpager/src/main/java/com/doool/viewpager/ViewPager.kt:177-182 | the cross axis stays centred; along the paging axis the page moves from centre by `(extent * position).toInt()`, a shift with the sign of extent times position and within one pixel of it, truncated toward the centre; position 0 is exactly centred |
| `Pager.PlacementMonotone` | viewpager/src/main/java/com/doool/viewpager/ViewPager.kt:177-182 | a page with a larger position is never placed further left or up |
| `Pages.Visibility.Code` | viewpager/src/main/java/com/doool/viewpager/ViewPager.kt:244 | every code is one of Android's 0, 4, 8, and only VISIBLE is 0 |
| `Pages.Abs` | app/src/main/java/com/doool/compose_viewpager/transformer/compose/CardFlipPageTransformer.kt:28 | Math.abs is non-negative and is x or -x |
| `Pages.ViewPage.constructor` | viewpager/src/main/java/com/doool/viewpager/ViewPager.kt:203-216 | a page keeps its width, height and left edge and starts from the given layer state |
| `Pages.ViewPage.Assign` | app/src/main/java/com/doool/compose_viewpager/transformer/compose/BaseTransformer.kt:40 | a subclass hook's writes leave the page with exactly the properties it computed |
| `Pages.ViewPage.PivotX` | viewpager/src/main/java/com/doool/viewpager/ViewPager.kt:219 | the pixel pivot divided by a non-zero width is the stored x fraction |
| `Pages.ViewPage.PivotY` | viewpager/src/main/java/com/doool/viewpager/ViewPager.kt:226 | the pixel pivot divided by a non-zero height is the stored y fraction |
| `Pages.ViewPage.PivotFractionX` | viewpager/src/main/java/com/doool/viewpager/ViewPager.kt:233 | the stored x fraction scaled by the width is the pixel pivot |
| `Pages.ViewPage.PivotFractionY` | viewpager/src/main/java/com/doool/viewpager/ViewPager.kt:239 | the stored y fraction scaled by the height is the pixel pivot |
| `Pages.ViewPage.SetPivotX` | viewpager/src/main/java/com/doool/viewpager/ViewPager.kt:218-223 | only the x pivot fraction changes, to value/width, and reading pivotX back returns the value |
| `Pages.ViewPage.SetPivotY` | viewpager/src/main/java/com/doool/viewpager/ViewPager.kt:225-230 | only the y pivot fraction changes, to value/height, and reading pivotY back returns the value |
| `Pages.ViewPage.SetPivotFractionX` | viewpager/src/main/java/com/doool/viewpager/ViewPager.kt:232-236 | set then get of the x fraction is the identity; nothing else changes |
| `Pages.ViewPage.SetPivotFractionY` | viewpager/src/main/java/com/doool/viewpager/ViewPager.kt:238-242 | set then get of the y fraction is the identity; nothing else changes |
| `Pages.ViewPage.ReadVisibility` | viewpager/src/main/java/com/doool/viewpager/ViewPager.kt:244 | the visibility getter always yields VISIBLE (code 0), since its backing field is never written |
| `Pages.ViewPage.SetVisibility` | viewpager/src/main/java/com/doool/viewpager/ViewPager.kt:244-250 | the flag reaches the host's visibility state through the callback; no layer property changes and the getter still reads VISIBLE |
| `BaseTransformers.ClampPosition` | app/src/main/java/com/doool/compose_viewpager/transformer/compose/BaseTransformer.kt:55-62 | the result lies in -1..1, is the identity on -1..1, saturates outside it and reads NaN as 0 |
| `BaseTransformers.ClampIdempotent` | app/src/main/java/com/doool/compose_viewpager/transformer/compose/BaseTransformer.kt:55-62 | clamping a clamped position changes nothing |
| `BaseTransformers.Min` | app/src/main/java/com/doool/compose_viewpager/transformer/compose/BaseTransformer.kt:130-132 | despite its name the result is at least both arguments and equals `value` when `value >= min` |
| `BaseTransformers.PreTransformed` | app/src/main/java/com/doool/compose_viewpager/transformer/compose/BaseTransformer.kt:89-107 | rotations reset to 0, scales to 1, pivots and translationY to 0; translationX is `-width*position` unless paging is enabled, then 0; with hiding on, alpha is 0 iff position <= -1 or >= 1, else 1; with hiding off alpha is 1; camera distance and visibility are untouched |
| `BaseTransformers.PreTransformForgets` | app/src/main/java/com/doool/compose_viewpager/transformer/compose/BaseTransformer.kt:89-99 | the reset result does not depend on the page's earlier state beyond camera distance and visibility |
| `BaseTransformers.PreTransformIdempotent` | app/src/main/java/com/doool/compose_viewpager/transformer/compose/BaseTransformer.kt:89-107 | resetting twice is resetting once |
| `BaseTransformers.HiddenIffOffscreen` | app/src/main/java/com/doool/compose_viewpager/transformer/compose/BaseTransformer.kt:102-106 | with the default switches, after clamping a page is hidden exactly when its reported position is a number at least one page away; NaN is shown |
| `BaseTransformers.OnPreTransform` | app/src/main/java/com/doool/compose_viewpager/transformer/compose/BaseTransformer.kt:89-107 | the field-by-field writes leave the page equal to `PreTransformed` of its old state |
| `BaseTransformers.OnPostTransform` | app/src/main/java/com/doool/compose_viewpager/transformer/compose/BaseTransformer.kt:118 | the post hook changes nothing |
| `BaseTransformers.TransformPage` | app/src/main/java/com/doool/compose_viewpager/transformer/compose/BaseTransformer.kt:37-42 | the same clamped position goes to the reset, then to the subclass hook, then to the post hook, in that order |
| `CardFlip.FlipAngle` | app/src/main/java/com/doool/compose_viewpager/transformer/compose/CardFlipPageTransformer.kt:56-70 | within one page its magnitude lies in 180..360; within two pages it is negative exactly right of centre |
| `CardFlip.FlipScale` | app/src/main/java/com/doool/compose_viewpager/transformer/compose/CardFlipPageTransformer.kt:49-54 | 1 at positions exactly 0 and 1, otherwise `1-|position|`; within one page it lies in 0..1 |
| `CardFlip.Flipped` | app/src/main/java/com/doool/compose_viewpager/transformer/compose/CardFlipPageTransformer.kt:27-34 | camera distance 120; VISIBLE iff -0.5 < position < 0.5, else INVISIBLE; translationX is `-left`; scales follow `FlipScale` when scalable and are untouched otherwise; VERTICAL writes only rotationY, anything else only rotationX; nothing else changes |
| `CardFlip.FlipAntisymmetric` | app/src/main/java/com/doool/compose_viewpager/transformer/compose/CardFlipPageTransformer.kt:56-70 | off centre, mirror positions flip by opposite angles |
| `CardFlip.FlipScaleLopsided` | app/src/main/java/com/doool/compose_viewpager/transformer/compose/CardFlipPageTransformer.kt:52-53 | the scale is 1 at position 1 but 0 at position -1 |
| `CardFlip.FlipIdempotent` | app/src/main/java/com/doool/compose_viewpager/transformer/compose/CardFlipPageTransformer.kt:27-34 | transforming twice at one position is transforming once |
| `CardFlip.CentrePage` | app/src/main/java/com/doool/compose_viewpager/transformer/compose/CardFlipPageTransformer.kt:27-34 | the centre page is visible, full size and turned 360 degrees |
| `CardFlip.CardFlipPageTransformer.constructor` | app/src/main/java/com/doool/compose_viewpager/transformer/compose/CardFlipPageTransformer.kt:24-25 | a new transformer is scalable and flips VERTICAL |
| `CardFlip.CardFlipPageTransformer.GetFlipOrientation` | app/src/main/java/com/doool/compose_viewpager/transformer/compose/CardFlipPageTransformer.kt:72-74 | the getter returns HORIZONTAL (1) or VERTICAL (2) |
| `CardFlip.CardFlipPageTransformer.SetFlipOrientation` | app/src/main/java/com/doool/compose_viewpager/transformer/compose/CardFlipPageTransformer.kt:80-82 | any value above 1 stores VERTICAL, every other value HORIZONTAL |
| `CardFlip.CardFlipPageTransformer.TransformPage` | app/src/main/java/com/doool/compose_viewpager/transformer/compose/CardFlipPageTransformer.kt:27-34 | the helpers' writes leave the page equal to `Flipped` of its old state |
| `CardFlip.CardFlipPageTransformer.SetVisibility` | app/src/main/java/com/doool/compose_viewpager/transformer/compose/CardFlipPageTransformer.kt:36-42 | only the visibility changes: VISIBLE strictly inside half a page, INVISIBLE otherwise |
| `CardFlip.CardFlipPageTransformer.SetTranslation` | app/src/main/java/com/doool/compose_viewpager/transformer/compose/CardFlipPageTransformer.kt:44-47 | only translationX changes, to `-left` |
| `CardFlip.CardFlipPageTransformer.SetSize` | app/src/main/java/com/doool/compose_viewpager/transformer/compose/CardFlipPageTransformer.kt:49-54 | when scalable only the scales change, to `FlipScale`; otherwise nothing changes |
| `CardFlip.CardFlipPageTransformer.SetRotation` | app/src/main/java/com/doool/compose_viewpager/transformer/compose/CardFlipPageTransformer.kt:56-70 | only one rotation changes, to `FlipAngle`: rotationY for VERTICAL, rotationX otherwise |
| `Spinner.Spun` | app/src/main/java/com/doool/compose_viewpager/transformer/compose/SpinnerTransformer.kt:8-33 | translationX is `-position*width`; within half a page VISIBLE with scales `1-|position|` in 0.5..1, beyond it GONE with scales untouched; alpha is 1 on -1..1 and 0 outside; rotation is `360|position|` (non-negative) on -1..0, `-360|position|` (non-positive) on (0, 1], untouched outside; nothing else changes |
| `Spinner.SpinMirrored` | app/src/main/java/com/doool/compose_viewpager/transformer/compose/SpinnerTransformer.kt:11-31 | mirror positions get equal scales, visibility and alpha, opposite translations and, on screen, opposite spins |
| `Spinner.SpinIdempotent` | app/src/main/java/com/doool/compose_viewpager/transformer/compose/SpinnerTransformer.kt:8-33 | transforming twice at one position is transforming once |
| `Spinner.TransformPage` | app/src/main/java/com/doool/compose_viewpager/transformer/compose/SpinnerTransformer.kt:8-33 | the branch-dependent writes leave the page equal to `Spun` of its old state |
| `DefaultTransformers.Shown` | viewpager/src/main/java/com/doool/viewpager/transformers/DefaultTransformer.kt:8-10 | visibility becomes VISIBLE and no other property changes |
| `DefaultTransformers.PositionIgnored` | viewpager/src/main/java/com/doool/viewpager/transformers/DefaultTransformer.kt:8-9 | the result does not depend on the position |
| `DefaultTransformers.ShownIdempotent` | viewpager/src/main/java/com/doool/viewpager/transformers/DefaultTransformer.kt:9 | applying it twice equals applying it once |
| `DefaultTransformers.TransformPage` | viewpager/src/main/java/com/doool/viewpager/transformers/DefaultTransformer.kt:8-10 | the single write leaves the page equal to `Shown` of its old state |

## Left out

- The toolkit integration is not modelled. This covers `rememberLazyViewPagerState`, the `ViewPager` composable, `remember`/`mutableStateOf`, measurement under `pageScale`, `placeWithLayer`, the drag modifier, and the placement gated on the host visibility state (ViewPager.kt:21-29,113-201). Only the placement arithmetic of lines 177-182 is kept.
- Coroutines and animation are not modelled. Each `snapTo`/`animateTo` is an instantaneous assignment of its target, so there is no interpolation and no concurrency.
- IEEE float behaviour is not modelled: rounding, infinities, overflow, and `Float.toInt` saturating at the Int range. Positions are reals. NaN appears only as the tagged input of `ClampPosition`.
- Interface dispatch is not modelled. `ViewPagerTransformer`, `ViewPagerState.transformPage` (ViewPager.kt:58-60) and `ViewPagerScopeImpl.getPagePosition` (ViewPager.kt:106-111) are not separate members. A caller applies one of the transformer methods to `Calculate(index)`.
- The abstract `onTransform` hook is a function parameter of `BaseTransformers.TransformPage`. No concrete subclass of `ABaseTransformer` is part of this model. `isPagingEnabled` and `hideOffscreenPages()` are the two fields of `BaseTransformers.Config`, with the source's defaults in `DefaultConfig`.
- The page's graphics layer is not modelled as a separate object. Its properties are fields of `ViewPage`. The transformers' `PageModifier` type is not part of this model; `ViewPage` stands for it. The page's `left` edge is an input field, since no definition of it is shown.
- `ViewPagerState` has no coroutine scope. Its late-initialised `orientation` is supplied at construction.
- The visibility callback's default no-op is not modelled. The model assumes the callback the layout pass installs before every transform.
- The demo activity and the debug logging call (ViewPager.kt:138) are not modelled.
- Pages.ViewPage.SetPivotX: requires a non-zero width. With width 0 the source stores an infinite or NaN fraction, which reals cannot express.
- Pages.ViewPage.SetPivotY: requires a non-zero height, for the same reason.
- BaseTransformers.PreTransformed: requires a non-zero width and height, because the reset goes through the pivot setters.
- BaseTransformers.OnPreTransform: requires a non-zero width and height, as above.
- BaseTransformers.TransformPage: requires a non-zero width and height, as above.
- Pager.ViewPagerState.Calculate: requires a positive page extent. With no measured size the source divides by zero.
- Pager.ViewPagerState.UpdatePage: requires a positive page extent, for the same reason.
- Pager.ViewPagerState.InitOffsetCentred: requires a positive page extent, so that its centring can be stated.

## Findings

| source | as written | input that shows it | evidently intended | confidence | as-written member | corrected member |
|---|---|---|---|---|---|---|
| viewpager/src/main/java/com/doool/viewpager/ViewPager.kt:62-66 | `initOffset` snaps the drag offset to `+base * currentPage`, the opposite sign of the settle target `-index * base` (line 85) | initial page 1, page extent 100: the offset becomes 100, page 1 sits at position 2, and no page is at position 0 | snap to `-currentPage * base`, which puts the current page front and centre | medium, not executed | `Pager.ViewPagerState.InitOffset`, with `Pager.InitOffsetOffCentre` | `Pager.ViewPagerState.InitOffsetCentred` |
