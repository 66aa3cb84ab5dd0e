/** Where a layer, and the image inside its frame, sit on the canvas; all stored positions are fractions. */
module LayerGeometry {
  import opened Common

  datatype Style = Free | Cover | Fit | FullW | FullH

  datatype Shape = NoShape | Square | Rounded | Circle | Heart | Star | ImageMask

  /** The image inside its frame. Older crops lack `wPct` and are treated as unset. */
  datatype Crop = Crop(style: Option<Style>, xPct: real, yPct: real, wPct: Option<real>,
                       rot: Option<real>, opacity: Option<real>)

  datatype Layer = Layer(
    src: string, natW: real, natH: real, xPct: real, yPct: real, wPct: real, hPct: real,
    rot: Option<real>, style: Style, opacity: Option<real>, shape: Option<Shape>,
    shapeSrc: Option<string>, crop: Option<Crop>, visible: bool)
  {
    /** `natW || 1`, `natH || 1`. */
    function NatW(): (w: real) ensures w != 0.0 { if natW == 0.0 then 1.0 else natW }
    function NatH(): (h: real) ensures h != 0.0 { if natH == 0.0 then 1.0 else natH }

    function Aspect(): (a: real)
      ensures a != 0.0
    {
      NonZeroQuotient(NatW(), NatH());
      NatW() / NatH()
    }

    /** The crop, when it carries a finite width. */
    function UsableCrop(): (c: Option<Crop>)
      ensures c.Some? ==> c.value.wPct.Some?
    {
      if crop.Some? && crop.value.wPct.Some? then crop else None
    }

    predicate HasMask() { shapeSrc.Some? && shapeSrc.value != "" }

    function EffectiveShape(): Shape {
      var stored := shape.GetOr(NoShape);
      if stored == Square && UsableCrop().None? then NoShape
      else if stored == ImageMask && !HasMask() then NoShape
      else stored
    }

    /** Rectangular frames of no width divide by zero in the source. */
    predicate NonDegenerate() { EffectiveShape() in {Square, ImageMask} ==> wPct != 0.0 }

    /** Only free layers rotate. */
    function Rotation(): real { if style == Free then rot.GetOr(0.0) else 0.0 }
  }

  lemma NonZeroQuotient(x: real, y: real)
    requires x != 0.0 && y != 0.0
    ensures x / y != 0.0
  {
    assert (x / y) * y == x;
  }

  /**
   A box centred at `v` kept inside `[0, span]`, or kept covering it when it is larger;
   a centre that already does is not moved.
   */
  function ClampInside(v: real, half: real, span: real): (c: real)
    ensures 2.0 * half <= span ==> half <= c && c + half <= span
    ensures 2.0 * half > span ==> c - half <= 0.0 && span <= c + half
    ensures (if 2.0 * half <= span then half <= v <= span - half else span - half <= v <= half) ==> c == v
    ensures c == v || c == half || c == span - half
  {
    if 2.0 * half <= span then Max(half, Min(span - half, v)) else Max(span - half, Min(half, v))
  }

  /** A size and a centre. */
  datatype Box = Box(w: real, h: real, cx: real, cy: real)

  datatype Rect = Rect(x: real, y: real, w: real, h: real, cx: real, cy: real, rot: real)

  function RectOf(b: Box, rot: real): Rect {
    Rect(b.cx - b.w / 2.0, b.cy - b.h / 2.0, b.w, b.h, b.cx, b.cy, rot)
  }

  /** `w0` by `h0` enlarged until it covers a canvas, centred. */
  function Covering(w0: real, h0: real, vbW: real, vbH: real): Box
    requires w0 != 0.0 && h0 != 0.0
  {
    var s := Max(vbW / w0, vbH / h0);
    Box(Scale(s, w0), Scale(s, h0), vbW / 2.0, vbH / 2.0)
  }

  /** `w0` by `h0` at the largest size inside a canvas, its stored centre clamped. */
  function Fitting(w0: real, h0: real, vbW: real, vbH: real, cx: real, cy: real): Box
    requires w0 != 0.0 && h0 != 0.0
  {
    var s := Min(vbW / w0, vbH / h0);
    var w, h := Scale(s, w0), Scale(s, h0);
    Box(w, h, ClampInside(cx, w / 2.0, vbW), ClampInside(cy, h / 2.0, vbH))
  }

  /** Square and image frames: freely sized rectangles. */
  function FrameBox(l: Layer, vbW: real, vbH: real): Box
    requires l.wPct != 0.0 && vbW != 0.0 && vbH != 0.0
  {
    var fw := Scale(l.wPct, vbW);
    var fh := if l.hPct > 0.0 then Scale(l.hPct, vbH) else fw;
    ScaleNonZero(l.wPct, vbW);
    ScaleNonZero(if l.hPct > 0.0 then l.hPct else 1.0, vbH);
    NonZeroQuotient(fw, fh);
    var aspect := fw / fh;
    var cx, cy := Scale(l.xPct, vbW), Scale(l.yPct, vbH);
    match l.style
    case Cover => Covering(fw, fh, vbW, vbH)
    case Fit => Fitting(fw, fh, vbW, vbH, cx, cy)
    case FullW => Box(vbW, vbW / aspect, vbW / 2.0, cy)
    case FullH => Box(Scale(aspect, vbH), vbH, cx, vbH / 2.0)
    case Free => Box(fw, fh, cx, cy)
  }

  lemma ScaleNonZero(k: real, x: real)
    requires k != 0.0 && x != 0.0
    ensures Scale(k, x) != 0.0
  {
    assert Scale(k, x) / k == x;
  }

  /** Every other frame is a square. */
  function SquareBox(l: Layer, vbW: real, vbH: real): Box {
    var cx, cy := Scale(l.xPct, vbW), Scale(l.yPct, vbH);
    match l.style
    case Cover => var side := Max(vbW, vbH); Box(side, side, vbW / 2.0, vbH / 2.0)
    case Fit =>
      var side := Min(vbW, vbH);
      Box(side, side, ClampInside(cx, side / 2.0, vbW), ClampInside(cy, side / 2.0, vbH))
    case FullW => Box(vbW, vbW, vbW / 2.0, cy)
    case FullH => Box(vbH, vbH, cx, vbH / 2.0)
    case Free => var side := Scale(l.wPct, vbW); Box(side, side, cx, cy)
  }

  /** A plain layer keeps the image's natural aspect. */
  function PlainBox(l: Layer, vbW: real, vbH: real): Box {
    var cx, cy := Scale(l.xPct, vbW), Scale(l.yPct, vbH);
    match l.style
    case Cover => Covering(l.NatW(), l.NatH(), vbW, vbH)
    case Fit => Fitting(l.NatW(), l.NatH(), vbW, vbH, cx, cy)
    case FullW => Box(vbW, vbW / l.Aspect(), vbW / 2.0, cy)
    case FullH => Box(Scale(l.Aspect(), vbH), vbH, cx, vbH / 2.0)
    case Free => var w := Scale(l.wPct, vbW); Box(w, w / l.Aspect(), cx, cy)
  }

  function LayerRect(l: Layer, vbW: real, vbH: real): Rect
    requires l.NonDegenerate() && vbW != 0.0 && vbH != 0.0
  {
    var box := match l.EffectiveShape()
      case Square => FrameBox(l, vbW, vbH)
      case ImageMask => FrameBox(l, vbW, vbH)
      case NoShape => PlainBox(l, vbW, vbH)
      case _ => SquareBox(l, vbW, vbH);
    RectOf(box, l.Rotation())
  }

  /** The image inside its frame, which is its canvas one level down. */
  function FrameImageBox(l: Layer, fw: real, fh: real): Box {
    match l.UsableCrop()
    case None => Covering(l.NatW(), l.NatH(), fw, fh)
    case Some(c) =>
      var cx, cy := Scale(c.xPct, fw), Scale(c.yPct, fh);
      match c.style.GetOr(Free)
      case Cover => Covering(l.NatW(), l.NatH(), fw, fh)
      case Fit => Fitting(l.NatW(), l.NatH(), fw, fh, cx, cy)
      case FullW => Box(fw, fw / l.Aspect(), fw / 2.0, cy)
      case FullH => Box(Scale(l.Aspect(), fh), fh, cx, fh / 2.0)
      case Free => var w := Scale(c.wPct.value, fw); Box(w, w / l.Aspect(), cx, cy)
  }

  /** In canvas coordinates, for a frame whose corner is at `fx`, `fy`. */
  function FrameImageRect(l: Layer, fx: real, fy: real, fw: real, fh: real): (real, real, real, real) {
    var b := FrameImageBox(l, fw, fh);
    (fx + b.cx - b.w / 2.0, fy + b.cy - b.h / 2.0, b.w, b.h)
  }

  // ---------------------------------------------------------------- what the styles mean

  /** A covering box reaches every edge of its canvas, and touches two of them. */
  lemma CoveringCovers(w0: real, h0: real, vbW: real, vbH: real)
    requires w0 > 0.0 && h0 > 0.0 && vbW > 0.0 && vbH > 0.0
    ensures var b := Covering(w0, h0, vbW, vbH);
      b.w >= vbW && b.h >= vbH && (b.w == vbW || b.h == vbH) && Scale(b.w, h0) == Scale(b.h, w0)
  {
    ShareOf(w0, h0, vbW, vbH);
  }

  /** A fitted box is inside its canvas and touches two opposite edges. */
  lemma FittingFits(w0: real, h0: real, vbW: real, vbH: real, cx: real, cy: real)
    requires w0 > 0.0 && h0 > 0.0 && vbW > 0.0 && vbH > 0.0
    ensures var b := Fitting(w0, h0, vbW, vbH, cx, cy);
      && b.w / 2.0 <= b.cx && b.cx + b.w / 2.0 <= vbW
      && b.h / 2.0 <= b.cy && b.cy + b.h / 2.0 <= vbH
      && (b.w == vbW || b.h == vbH) && Scale(b.w, h0) == Scale(b.h, w0)
  {
    ShareOf(w0, h0, vbW, vbH);
  }

  lemma ShareOf(w0: real, h0: real, vbW: real, vbH: real)
    requires w0 > 0.0 && h0 > 0.0 && vbW > 0.0 && vbH > 0.0
    ensures var sw, sh := vbW / w0, vbH / h0;
      && Scale(sw, w0) == vbW && Scale(sh, h0) == vbH
      && (sw <= sh ==> Scale(sw, h0) <= vbH && Scale(sh, w0) >= vbW)
      && (sh <= sw ==> Scale(sh, w0) <= vbW && Scale(sw, h0) >= vbH)
      && (forall s :: Scale(Scale(s, w0), h0) == Scale(Scale(s, h0), w0))
  {
    var sw, sh := vbW / w0, vbH / h0;
    if sw <= sh { MulMono(sw, sh, h0); MulMono(sw, sh, w0); }
    if sh <= sw { MulMono(sh, sw, h0); MulMono(sh, sw, w0); }
    forall s ensures Scale(Scale(s, w0), h0) == Scale(Scale(s, h0), w0) { }
  }

  /** A layer drawn without a frame: it has no shape, or only the remains of a square or a mask. */
  ghost predicate Unframed(l: Layer) {
    || l.shape == None || l.shape == Some(NoShape)
    || (l.shape == Some(Square) && (l.crop.None? || l.crop.value.wPct.None?))
    || (l.shape == Some(ImageMask) && (l.shapeSrc.None? || l.shapeSrc.value == ""))
  }

  /** A stored shape is kept unless its crop or its mask is gone. */
  lemma ShapeKeptExactly(l: Layer)
    ensures l.EffectiveShape() == NoShape <==> Unframed(l)
    ensures !Unframed(l) ==> l.shape == Some(l.EffectiveShape())
  {
  }

  /** An image's natural size, where a size that was never recorded counts as one. */
  ghost function NaturalSize(l: Layer): (real, real) {
    (if l.natW == 0.0 then 1.0 else l.natW, if l.natH == 0.0 then 1.0 else l.natH)
  }

  /** The size whose aspect a layer keeps: the image's, its frame's, or a square's. */
  ghost function OwnSize(l: Layer, vbW: real, vbH: real): (real, real) {
    if Unframed(l) then NaturalSize(l)
    else if l.shape in {Some(Square), Some(ImageMask)} then
      (Scale(l.wPct, vbW), if l.hPct > 0.0 then Scale(l.hPct, vbH) else Scale(l.wPct, vbW))
    else (1.0, 1.0)
  }

  /** The centre of a box of some size inside a span that is nearest to the stored one. */
  ghost predicate NearestTo(centre: real, stored: real, size: real, span: real) {
    if stored - size / 2.0 < 0.0 then centre == size / 2.0
    else if stored + size / 2.0 > span then centre == span - size / 2.0
    else centre == stored
  }

  /** What a style promises of a box of aspect `w0 : h0` on a canvas, whose stored place and width are given. */
  ghost predicate StyleHolds(
    style: Style, b: Box, w0: real, h0: real, vbW: real, vbH: real, cx: real, cy: real, w: real)
  {
    && Scale(b.w, h0) == Scale(b.h, w0)
    && (match style
        case Cover =>
          && b.cx - b.w / 2.0 <= 0.0 && vbW <= b.cx + b.w / 2.0 && b.cy - b.h / 2.0 <= 0.0 && vbH <= b.cy + b.h / 2.0
          && (b.w == vbW || b.h == vbH) && b.cx == vbW / 2.0 && b.cy == vbH / 2.0
        case Fit =>
          && 0.0 <= b.cx - b.w / 2.0 && b.cx + b.w / 2.0 <= vbW && 0.0 <= b.cy - b.h / 2.0 && b.cy + b.h / 2.0 <= vbH
          && (b.w == vbW || b.h == vbH) && NearestTo(b.cx, cx, b.w, vbW) && NearestTo(b.cy, cy, b.h, vbH)
        case FullW => b.w == vbW && b.cx - b.w / 2.0 == 0.0 && b.cy == cy
        case FullH => b.h == vbH && b.cy - b.h / 2.0 == 0.0 && b.cx == cx
        case Free => b.w == w && b.cx == cx && b.cy == cy)
  }

  lemma SpanningKeepsAspect(w0: real, h0: real, span: real)
    requires w0 != 0.0 && h0 != 0.0 && w0 / h0 != 0.0
    ensures Scale(span, h0) == Scale(span / (w0 / h0), w0)
    ensures Scale(Scale(w0 / h0, span), h0) == Scale(span, w0)
  {
    var a := w0 / h0;
    assert a * h0 == w0;
    var q := span / a;
    assert q * a == span;
    assert span * h0 == (q * a) * h0 == q * (a * h0);
    assert (a * span) * h0 == span * (a * h0);
  }

  lemma StyledBox(style: Style, w0: real, h0: real, vbW: real, vbH: real, cx: real, cy: real, w: real)
    requires w0 > 0.0 && h0 > 0.0 && vbW > 0.0 && vbH > 0.0 && w0 / h0 != 0.0
    ensures StyleHolds(Cover, Covering(w0, h0, vbW, vbH), w0, h0, vbW, vbH, cx, cy, w)
    ensures StyleHolds(Fit, Fitting(w0, h0, vbW, vbH, cx, cy), w0, h0, vbW, vbH, cx, cy, w)
    ensures StyleHolds(FullW, Box(vbW, vbW / (w0 / h0), vbW / 2.0, cy), w0, h0, vbW, vbH, cx, cy, w)
    ensures StyleHolds(FullH, Box(Scale(w0 / h0, vbH), vbH, cx, vbH / 2.0), w0, h0, vbW, vbH, cx, cy, w)
    ensures StyleHolds(Free, Box(w, w / (w0 / h0), cx, cy), w0, h0, vbW, vbH, cx, cy, w)
  {
    CoveringCovers(w0, h0, vbW, vbH);
    FittingFits(w0, h0, vbW, vbH, cx, cy);
    SpanningKeepsAspect(w0, h0, vbW);
    SpanningKeepsAspect(w0, h0, vbH);
    SpanningKeepsAspect(w0, h0, w);
    hide Scale, ClampInside;
  }

  /** A box placed by a layer's style and stored fractions. */
  ghost predicate Styled(l: Layer, b: Box, size: (real, real), vbW: real, vbH: real) {
    StyleHolds(l.style, b, size.0, size.1, vbW, vbH, Scale(l.xPct, vbW), Scale(l.yPct, vbH), Scale(l.wPct, vbW))
  }

  lemma PlainStyled(l: Layer, vbW: real, vbH: real)
    requires vbW > 0.0 && vbH > 0.0 && l.NatW() > 0.0 && l.NatH() > 0.0
    ensures Styled(l, PlainBox(l, vbW, vbH), (l.NatW(), l.NatH()), vbW, vbH)
  {
    hide StyleHolds, Covering, Fitting, Scale, Layer.NatW, Layer.NatH;
    NonZeroQuotient(l.NatW(), l.NatH());
    StyledBox(l.style, l.NatW(), l.NatH(), vbW, vbH, Scale(l.xPct, vbW), Scale(l.yPct, vbH), Scale(l.wPct, vbW));
  }

  lemma FrameStyled(l: Layer, vbW: real, vbH: real)
    requires vbW > 0.0 && vbH > 0.0 && l.wPct > 0.0
    ensures var fw := Scale(l.wPct, vbW);
      Styled(l, FrameBox(l, vbW, vbH), (fw, if l.hPct > 0.0 then Scale(l.hPct, vbH) else fw), vbW, vbH)
  {
    PositiveProduct(l.wPct, vbW);
    if l.hPct > 0.0 { PositiveProduct(l.hPct, vbH); }
    var fw := Scale(l.wPct, vbW);
    var fh := if l.hPct > 0.0 then Scale(l.hPct, vbH) else fw;
    assert fw > 0.0 && fh > 0.0;
    NonZeroQuotient(fw, fh);
    FrameIsStyled(l, vbW, vbH, fw, fh);
  }

  lemma FrameIsStyled(l: Layer, vbW: real, vbH: real, fw: real, fh: real)
    requires vbW > 0.0 && vbH > 0.0 && l.wPct > 0.0 && fw > 0.0 && fh > 0.0 && fw / fh != 0.0
    requires fw == Scale(l.wPct, vbW) && fh == if l.hPct > 0.0 then Scale(l.hPct, vbH) else fw
    ensures Styled(l, FrameBox(l, vbW, vbH), (fw, fh), vbW, vbH)
  {
    hide StyleHolds, Covering, Fitting, Scale;
    StyledBox(l.style, fw, fh, vbW, vbH, Scale(l.xPct, vbW), Scale(l.yPct, vbH), fw);
    FreeFrame(l.style, fw, fh, vbW, vbH, Scale(l.xPct, vbW), Scale(l.yPct, vbH));
  }

  lemma FreeFrame(style: Style, fw: real, fh: real, vbW: real, vbH: real, cx: real, cy: real)
    ensures StyleHolds(Free, Box(fw, fh, cx, cy), fw, fh, vbW, vbH, cx, cy, fw)
  {
  }

  lemma SquareStyled(l: Layer, vbW: real, vbH: real)
    requires vbW > 0.0 && vbH > 0.0
    ensures Styled(l, SquareBox(l, vbW, vbH), (1.0, 1.0), vbW, vbH)
  {
    var b := SquareBox(l, vbW, vbH);
    assert b.w == b.h;
    hide Scale;
  }

  /** Every style keeps its promise, in each of the three geometries. */
  lemma LayerStyleHolds(l: Layer, vbW: real, vbH: real)
    requires vbW > 0.0 && vbH > 0.0 && l.natW >= 0.0 && l.natH >= 0.0
    requires !Unframed(l) && l.shape in {Some(Square), Some(ImageMask)} ==> l.wPct > 0.0
    ensures l.NonDegenerate()
    ensures var r := LayerRect(l, vbW, vbH);
      && r.x == r.cx - r.w / 2.0 && r.y == r.cy - r.h / 2.0
      && r.rot == (if l.style == Free && l.rot.Some? then l.rot.value else 0.0)
      && Styled(l, Box(r.w, r.h, r.cx, r.cy), OwnSize(l, vbW, vbH), vbW, vbH)
  {
    ShapeKeptExactly(l);
    hide Styled, Scale, FrameBox, PlainBox, SquareBox;
    if l.EffectiveShape() in {Square, ImageMask} {
      FrameStyled(l, vbW, vbH);
    } else if l.EffectiveShape() == NoShape {
      PlainStyled(l, vbW, vbH);
    } else {
      SquareStyled(l, vbW, vbH);
    }
  }

  /** The same promises hold of the image inside its frame; without a crop it covers the frame. */
  lemma CropStyleHolds(l: Layer, fx: real, fy: real, fw: real, fh: real)
    requires fw > 0.0 && fh > 0.0 && l.natW >= 0.0 && l.natH >= 0.0
    ensures var (x, y, w, h) := FrameImageRect(l, fx, fy, fw, fh);
      var b, (natW, natH) := Box(w, h, x - fx + w / 2.0, y - fy + h / 2.0), NaturalSize(l);
      if l.crop.None? || l.crop.value.wPct.None? then StyleHolds(Cover, b, natW, natH, fw, fh, 0.0, 0.0, 0.0)
      else
        var c := l.crop.value;
        StyleHolds(if c.style.Some? then c.style.value else Free, b, natW, natH, fw, fh,
                   Scale(c.xPct, fw), Scale(c.yPct, fh), Scale(c.wPct.value, fw))
  {
    hide StyleHolds, Covering, Fitting, Scale;
    NonZeroQuotient(l.NatW(), l.NatH());
    match l.UsableCrop()
    case None => StyledBox(Cover, l.NatW(), l.NatH(), fw, fh, 0.0, 0.0, 0.0);
    case Some(c) =>
      StyledBox(c.style.GetOr(Free), l.NatW(), l.NatH(), fw, fh, Scale(c.xPct, fw), Scale(c.yPct, fh),
        Scale(c.wPct.value, fw));
  }

  // ---------------------------------------------------------------- scale equivariance

  function ScaledBox(k: real, b: Box): Box { Box(Scale(k, b.w), Scale(k, b.h), Scale(k, b.cx), Scale(k, b.cy)) }

  function ScaledRect(k: real, r: Rect): Rect {
    Rect(Scale(k, r.x), Scale(k, r.y), Scale(k, r.w), Scale(k, r.h), Scale(k, r.cx), Scale(k, r.cy), r.rot)
  }

  lemma HalvesScale(k: real, x: real)
    ensures Scale(k, x) / 2.0 == Scale(k, x / 2.0)
  {
  }

  lemma ClampScales(k: real, v: real, half: real, span: real)
    requires k > 0.0
    ensures ClampInside(Scale(k, v), Scale(k, half), Scale(k, span)) == Scale(k, ClampInside(v, half, span))
  {
    ScaleOrder(k, 2.0 * half, span);
    ScaleLinear(k, half, half);
    ScaleLinear(k, span, half);
    ScaleBounds(k, span - half, v);
    ScaleBounds(k, half, v);
    ScaleBounds(k, half, Min(span - half, v));
    ScaleBounds(k, span - half, Min(half, v));
    hide Scale;
    assert half + half == 2.0 * half;
  }

  /** A fixed-size image placed on a scaled canvas. */
  lemma ImageOnScaledCanvas(k: real, w0: real, h0: real, vbW: real, vbH: real, cx: real, cy: real)
    requires k > 0.0 && w0 != 0.0 && h0 != 0.0
    ensures Covering(w0, h0, Scale(k, vbW), Scale(k, vbH)) == ScaledBox(k, Covering(w0, h0, vbW, vbH))
    ensures Fitting(w0, h0, Scale(k, vbW), Scale(k, vbH), Scale(k, cx), Scale(k, cy))
         == ScaledBox(k, Fitting(w0, h0, vbW, vbH, cx, cy))
  {
    ScaleRatio(k, vbW, w0);
    ScaleRatio(k, vbH, h0);
    ScaleBounds(k, vbW / w0, vbH / h0);
    var big, small := Max(vbW / w0, vbH / h0), Min(vbW / w0, vbH / h0);
    ScaleCompose(k, big, w0);
    ScaleCompose(k, big, h0);
    ScaleCompose(k, small, w0);
    ScaleCompose(k, small, h0);
    HalvesScale(k, vbW);
    HalvesScale(k, vbH);
    HalvesScale(k, Scale(small, w0));
    HalvesScale(k, Scale(small, h0));
    ClampScales(k, cx, Scale(small, w0) / 2.0, vbW);
    ClampScales(k, cy, Scale(small, h0) / 2.0, vbH);
    hide Scale, ClampInside;
  }

  /** A frame that scales with its canvas. */
  lemma FrameOnScaledCanvas(k: real, w0: real, h0: real, vbW: real, vbH: real, cx: real, cy: real)
    requires k > 0.0 && w0 != 0.0 && h0 != 0.0
    ensures Scale(k, w0) != 0.0 && Scale(k, h0) != 0.0
    ensures Covering(Scale(k, w0), Scale(k, h0), Scale(k, vbW), Scale(k, vbH))
      == ScaledBox(k, Covering(w0, h0, vbW, vbH))
    ensures Fitting(Scale(k, w0), Scale(k, h0), Scale(k, vbW), Scale(k, vbH), Scale(k, cx), Scale(k, cy))
         == ScaledBox(k, Fitting(w0, h0, vbW, vbH, cx, cy))
  {
    ScaleRatio(k, vbW, w0);
    ScaleRatio(k, vbH, h0);
    var big, small := Max(vbW / w0, vbH / h0), Min(vbW / w0, vbH / h0);
    ScaleCompose(k, big, w0);
    ScaleCompose(k, big, h0);
    ScaleCompose(k, small, w0);
    ScaleCompose(k, small, h0);
    HalvesScale(k, vbW);
    HalvesScale(k, vbH);
    HalvesScale(k, Scale(small, w0));
    HalvesScale(k, Scale(small, h0));
    ClampScales(k, cx, Scale(small, w0) / 2.0, vbW);
    ClampScales(k, cy, Scale(small, h0) / 2.0, vbH);
    hide Scale, ClampInside;
  }

  lemma FractionsScale(k: real, x: real, y: real, vbW: real, vbH: real)
    ensures Scale(x, Scale(k, vbW)) == Scale(k, Scale(x, vbW))
    ensures Scale(y, Scale(k, vbH)) == Scale(k, Scale(y, vbH))
    ensures Scale(k, vbW) / 2.0 == Scale(k, vbW / 2.0) && Scale(k, vbH) / 2.0 == Scale(k, vbH / 2.0)
  {
    ScaleCompose(k, x, vbW);
    ScaleCompose(k, y, vbH);
    HalvesScale(k, vbW);
    HalvesScale(k, vbH);
  }

  lemma FrameBoxScales(k: real, l: Layer, vbW: real, vbH: real)
    requires k > 0.0 && l.wPct != 0.0 && vbW != 0.0 && vbH != 0.0
    ensures Scale(k, vbW) != 0.0 && Scale(k, vbH) != 0.0
    ensures FrameBox(l, Scale(k, vbW), Scale(k, vbH)) == ScaledBox(k, FrameBox(l, vbW, vbH))
  {
    ScaleNonZero(k, vbW);
    ScaleNonZero(k, vbH);
    var fw := Scale(l.wPct, vbW);
    var fh := if l.hPct > 0.0 then Scale(l.hPct, vbH) else fw;
    ScaleNonZero(l.wPct, vbW);
    ScaleNonZero(if l.hPct > 0.0 then l.hPct else 1.0, vbH);
    NonZeroQuotient(fw, fh);
    FractionsScale(k, l.xPct, l.yPct, vbW, vbH);
    FractionsScale(k, l.wPct, l.hPct, vbW, vbH);
    FrameOnScaledCanvas(k, fw, fh, vbW, vbH, Scale(l.xPct, vbW), Scale(l.yPct, vbH));
    ScaleRatio(k, fw, fh);
    ScaleRatio(k, vbW, fw / fh);
    ScaleCompose(k, fw / fh, vbH);
    hide Scale, Covering, Fitting;
  }

  lemma SquareBoxScales(k: real, l: Layer, vbW: real, vbH: real)
    requires k > 0.0
    ensures SquareBox(l, Scale(k, vbW), Scale(k, vbH)) == ScaledBox(k, SquareBox(l, vbW, vbH))
  {
    FractionsScale(k, l.xPct, l.yPct, vbW, vbH);
    FractionsScale(k, l.wPct, 0.0, vbW, vbH);
    ScaleBounds(k, vbW, vbH);
    var side := Min(vbW, vbH);
    HalvesScale(k, side);
    ClampScales(k, Scale(l.xPct, vbW), side / 2.0, vbW);
    ClampScales(k, Scale(l.yPct, vbH), side / 2.0, vbH);
    hide Scale, ClampInside;
  }

  lemma PlainBoxScales(k: real, l: Layer, vbW: real, vbH: real)
    requires k > 0.0
    ensures PlainBox(l, Scale(k, vbW), Scale(k, vbH)) == ScaledBox(k, PlainBox(l, vbW, vbH))
  {
    FractionsScale(k, l.xPct, l.yPct, vbW, vbH);
    FractionsScale(k, l.wPct, 0.0, vbW, vbH);
    ImageOnScaledCanvas(k, l.NatW(), l.NatH(), vbW, vbH, Scale(l.xPct, vbW), Scale(l.yPct, vbH));
    ScaleRatio(k, vbW, l.Aspect());
    ScaleRatio(k, Scale(l.wPct, vbW), l.Aspect());
    ScaleCompose(k, l.Aspect(), vbH);
    hide Scale, Covering, Fitting, Layer.Aspect, Layer.NatW, Layer.NatH;
  }

  lemma FrameImageBoxScales(k: real, l: Layer, fw: real, fh: real)
    requires k > 0.0
    ensures FrameImageBox(l, Scale(k, fw), Scale(k, fh)) == ScaledBox(k, FrameImageBox(l, fw, fh))
  {
    var c := l.UsableCrop();
    var x, y := (if c.Some? then c.value.xPct else 0.0), (if c.Some? then c.value.yPct else 0.0);
    var w := if c.Some? then c.value.wPct.value else 0.0;
    FractionsScale(k, x, y, fw, fh);
    FractionsScale(k, w, 0.0, fw, fh);
    ImageOnScaledCanvas(k, l.NatW(), l.NatH(), fw, fh, Scale(x, fw), Scale(y, fh));
    ScaleRatio(k, fw, l.Aspect());
    ScaleRatio(k, Scale(w, fw), l.Aspect());
    ScaleCompose(k, l.Aspect(), fh);
    hide Scale, Covering, Fitting, Layer.Aspect, Layer.NatW, Layer.NatH;
  }

  lemma RectOfScales(k: real, b: Box, rot: real)
    ensures RectOf(ScaledBox(k, b), rot) == ScaledRect(k, RectOf(b, rot))
  {
    HalvesScale(k, b.w);
    HalvesScale(k, b.h);
    ScaleLinear(k, b.cx, b.w / 2.0);
    ScaleLinear(k, b.cy, b.h / 2.0);
    hide Scale;
  }

  /** A layer's rectangle scales with its canvas, across the three geometries and five styles. */
  lemma LayerRectScales(k: real, l: Layer, vbW: real, vbH: real)
    requires k > 0.0 && l.NonDegenerate() && vbW != 0.0 && vbH != 0.0
    ensures Scale(k, vbW) != 0.0 && Scale(k, vbH) != 0.0
    ensures LayerRect(l, Scale(k, vbW), Scale(k, vbH)) == ScaledRect(k, LayerRect(l, vbW, vbH))
  {
    ScaleNonZero(k, vbW);
    ScaleNonZero(k, vbH);
    if l.EffectiveShape() in {Square, ImageMask} {
      FrameBoxScales(k, l, vbW, vbH);
      RectOfScales(k, FrameBox(l, vbW, vbH), l.Rotation());
    } else if l.EffectiveShape() == NoShape {
      PlainBoxScales(k, l, vbW, vbH);
      RectOfScales(k, PlainBox(l, vbW, vbH), l.Rotation());
    } else {
      SquareBoxScales(k, l, vbW, vbH);
      RectOfScales(k, SquareBox(l, vbW, vbH), l.Rotation());
    }
    hide Scale, FrameBox, PlainBox, SquareBox, RectOf, ScaledBox, ScaledRect;
  }

  lemma FrameImageRectScales(k: real, l: Layer, fx: real, fy: real, fw: real, fh: real)
    requires k > 0.0
    ensures var (x, y, w, h) := FrameImageRect(l, fx, fy, fw, fh);
      FrameImageRect(l, Scale(k, fx), Scale(k, fy), Scale(k, fw), Scale(k, fh))
        == (Scale(k, x), Scale(k, y), Scale(k, w), Scale(k, h))
  {
    FrameImageBoxScales(k, l, fw, fh);
    var b := FrameImageBox(l, fw, fh);
    HalvesScale(k, b.w);
    HalvesScale(k, b.h);
    ScaleLinear(k, fx, b.cx);
    ScaleLinear(k, fy, b.cy);
    ScaleLinear(k, fx + b.cx, b.w / 2.0);
    ScaleLinear(k, fy + b.cy, b.h / 2.0);
    hide Scale, FrameImageBox;
  }
}
