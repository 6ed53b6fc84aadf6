/**
 * The frame geometry of `setupPlayerItem`: a decoded frame holds two equal halves packed
 * along an axis. The render size is one half; each frame the handler crops the half at the
 * origin (the filter's mask image) and the other half (the filter's input image), and
 * translates the other half back onto the origin.
 * CGFloat arithmetic is modelled with exact reals.
 */
module Geometry {
  import opened Wrappers

  /** NSLayoutConstraint.Axis as used by the view: how the two halves are packed. */
  datatype Axis = Vertical | Horizontal

  /** CGSize */
  datatype Size = Size(width: real, height: real)

  /** CGRect, with non-negative sizes (every rectangle built here is standardised). */
  datatype Rect = Rect(x: real, y: real, width: real, height: real)

  predicate IsPositive(s: Size) {
    s.width > 0.0 && s.height > 0.0
  }

  function Min(a: real, b: real): real { if a <= b then a else b }

  function Max(a: real, b: real): real { if a <= b then b else a }

  /** `CGRect(origin: .zero, size: s)` */
  function SourceRect(s: Size): Rect {
    Rect(0.0, 0.0, s.width, s.height)
  }

  /** `CGRect.offsetBy(dx:dy:)`; translating an image's extent by a CGAffineTransform
      translation moves its rectangle the same way. */
  function Offset(r: Rect, dx: real, dy: real): Rect {
    Rect(r.x + dx, r.y + dy, r.width, r.height)
  }

  /** `CGRect.union` of two rectangles with non-negative sizes: their bounding box. */
  function Union(a: Rect, b: Rect): Rect {
    var x0 := Min(a.x, b.x);
    var y0 := Min(a.y, b.y);
    var x1 := Max(a.x + a.width, b.x + b.width);
    var y1 := Max(a.y + a.height, b.y + b.height);
    Rect(x0, y0, x1 - x0, y1 - y0)
  }

  /** The two rectangles share no interior point (they may touch along an edge). */
  predicate InteriorsDisjoint(a: Rect, b: Rect) {
    a.x + a.width <= b.x || b.x + b.width <= a.x ||
    a.y + a.height <= b.y || b.y + b.height <= a.y
  }

  /** `a` lies within `b`. */
  predicate Within(a: Rect, b: Rect) {
    b.x <= a.x && a.x + a.width <= b.x + b.width &&
    b.y <= a.y && a.y + a.height <= b.y + b.height
  }

  /** The full frame two halves of size `half` make when packed along `axis`. */
  function Doubled(half: Size, axis: Axis): Size {
    match axis
    case Vertical => Size(half.width, half.height * 2.0)
    case Horizontal => Size(half.width * 2.0, half.height)
  }

  /** `videoSize`: the size of one half of a frame whose natural size is `natural`.
      It is positive exactly when the natural size is, and two of it packed along the
      same axis give back the natural size. */
  function RenderSize(natural: Size, axis: Axis): (r: Size)
    ensures IsPositive(r) <==> IsPositive(natural)
    ensures Doubled(r, axis) == natural
  {
    match axis
    case Vertical => Size(natural.width, natural.height * 0.5)
    case Horizontal => Size(natural.width * 0.5, natural.height)
  }

  /** AVMutableVideoComposition as configured by the view: its render size, which is also
      the `videoSize` the per-frame handler captured. */
  datatype Composition = Composition(renderSize: Size)

  /** The composition `setupPlayerItem` installs for an item whose asset has the given track
      natural sizes, with the axis read at setup time. None when the asset has no track or
      the half-frame size is not positive (the guards that return early). */
  function SetupComposition(tracks: seq<Size>, axis: Axis): (c: Option<Composition>)
    ensures c.Some? <==> |tracks| > 0 && IsPositive(tracks[0])
    ensures c.Some? ==> IsPositive(c.value.renderSize) && Doubled(c.value.renderSize, axis) == tracks[0]
  {
    if |tracks| == 0 then None
    else
      var videoSize := RenderSize(tracks[0], axis);
      if videoSize.width > 0.0 && videoSize.height > 0.0 then Some(Composition(videoSize))
      else None
  }

  /** What the per-frame handler feeds the alpha filter: the mask crop at the origin, the
      crop of the other half and the translation applied to it. */
  datatype FrameLayout = FrameLayout(maskCrop: Rect, inputCrop: Rect, shiftX: real, shiftY: real)

  /** The per-frame handler, for the `videoSize` captured at setup and the axis it reads
      from the view when the frame arrives. The translated input crop lands exactly on the
      mask crop, the two crops are congruent, and, for a positive size, they do not overlap
      and together cover two halves packed along the axis read at that frame. */
  function FrameHandler(videoSize: Size, liveAxis: Axis): (l: FrameLayout)
    ensures l.maskCrop == SourceRect(videoSize)
    ensures Offset(l.inputCrop, l.shiftX, l.shiftY) == l.maskCrop
    ensures l.inputCrop.width == l.maskCrop.width && l.inputCrop.height == l.maskCrop.height
    ensures IsPositive(videoSize) ==> InteriorsDisjoint(l.inputCrop, l.maskCrop)
    ensures IsPositive(videoSize) ==> Union(l.maskCrop, l.inputCrop) == SourceRect(Doubled(videoSize, liveAxis))
  {
    var sourceRect := SourceRect(videoSize);
    match liveAxis
    case Vertical =>
      FrameLayout(sourceRect, Offset(sourceRect, 0.0, sourceRect.height), 0.0, -sourceRect.height)
    case Horizontal =>
      FrameLayout(sourceRect, Offset(sourceRect, sourceRect.width, 0.0), -sourceRect.width, 0.0)
  }

  /** When the axis is the same at setup and at every frame, the two crops split the
      decoded frame exactly: both lie inside it and their bounding box is the whole frame. */
  lemma ConsistentAxisSplitsFrame(natural: Size, axis: Axis)
    requires IsPositive(natural)
    ensures var l := FrameHandler(RenderSize(natural, axis), axis);
      Within(l.maskCrop, SourceRect(natural)) && Within(l.inputCrop, SourceRect(natural)) &&
      Union(l.maskCrop, l.inputCrop) == SourceRect(natural)
  {
  }

  /** `axis` is public and the handler re-reads it at every frame, while `videoSize` was
      fixed at setup: once the axis is changed after setup, the input crop lies entirely
      outside the decoded frame. */
  lemma AxisChangedAfterSetupMissesFrame(natural: Size, setupAxis: Axis, liveAxis: Axis)
    requires IsPositive(natural)
    requires setupAxis != liveAxis
    ensures InteriorsDisjoint(FrameHandler(RenderSize(natural, setupAxis), liveAxis).inputCrop, SourceRect(natural))
  {
  }

  /** The axis the per-frame handler tests: `self?.axis == .vertical` is false once the
      weakly captured view has been released, so a released view reads as horizontal. */
  function AxisSeenByHandler(viewAlive: bool, axis: Axis): (a: Axis)
    ensures a == Vertical <==> viewAlive && axis == Vertical
  {
    if viewAlive && axis == Vertical then Vertical else Horizontal
  }

  /** A frame rendered after the view is released, for an item set up vertically, takes
      the horizontal branch: its input crop lies entirely outside the decoded frame. */
  lemma ReleasedViewMissesFrame(natural: Size)
    requires IsPositive(natural)
    ensures InteriorsDisjoint(
      FrameHandler(RenderSize(natural, Vertical), AxisSeenByHandler(false, Vertical)).inputCrop,
      SourceRect(natural))
  {
    AxisChangedAfterSetupMissesFrame(natural, Vertical, Horizontal);
  }

  /** A 200 x 400 frame packed vertically: render size 200 x 200, mask crop (0,0,200,200),
      input crop (0,200,200,200) before its translation by (0,-200). */
  lemma VerticalExample()
    ensures SetupComposition([Size(200.0, 400.0)], Vertical) == Some(Composition(Size(200.0, 200.0)))
    ensures FrameHandler(Size(200.0, 200.0), Vertical)
      == FrameLayout(Rect(0.0, 0.0, 200.0, 200.0), Rect(0.0, 200.0, 200.0, 200.0), 0.0, -200.0)
  {
    assert RenderSize(Size(200.0, 400.0), Vertical) == Size(200.0, 200.0);
  }
}
