/** A stored design resolved into viewBox nodes, and the layout of its text nodes. */
module Scene {
  import opened Common
  import opened TextGeometry
  import opened LayerGeometry
  import opened Letterboxes
  import Arc = ArcGeometry

  // ---------------------------------------------------------------- text designs

  datatype Align = Left | Center | Right

  datatype VAlign = Top | Middle | Bottom

  /** Numbers that storage lost or that are not finite are absent. */
  datatype TextDesign = TextDesign(
    text: Option<string>, font: string, sizePct: Option<real>, bold: bool, italic: bool,
    align: Option<Align>, valign: Option<VAlign>, color: string,
    xPct: Option<real>, yPct: Option<real>, wPct: Option<real>, hPct: Option<real>,
    rot: Option<real>, curve: Option<real>, letterSpacing: Option<real>, advanceRatio: Option<real>)

  datatype SceneText = SceneText(
    text: string, font: string, fontSize: real, bold: bool, italic: bool, align: Align, valign: VAlign,
    color: string, cx: real, cy: real, w: real, h: real, rot: real, curve: real,
    letterSpacing: real, advanceRatio: real)

  /** A stored width of zero means none was recorded; a stored position of zero is a position. */
  function WidthShare(d: TextDesign): real {
    var w := d.wPct.GetOr(0.0);
    if w == 0.0 then 0.5 else w
  }

  function ResolveSceneText(d: TextDesign, vbW: real, vbH: real, value: Option<string>): SceneText {
    SceneText(
      if value.Some? then value.value else d.text.GetOr(""),
      d.font,
      Scale(d.sizePct.GetOr(0.0), vbH),
      d.bold, d.italic, d.align.GetOr(Center), d.valign.GetOr(Middle),
      if d.color == "" then "#000000" else d.color,
      Scale(d.xPct.GetOr(0.5), vbW),
      Scale(d.yPct.GetOr(0.5), vbH),
      Scale(WidthShare(d), vbW),
      Scale(d.hPct.GetOr(0.0), vbH),
      d.rot.GetOr(0.0),
      Max(-100.0, Min(100.0, d.curve.GetOr(0.0))),
      Scale(d.letterSpacing.GetOr(0.0), vbH),
      if d.advanceRatio.Some? && d.advanceRatio.value > 0.0 then d.advanceRatio.value else 0.0)
  }

  /** A stored fraction of a span, and a default share of it where none was stored. */
  ghost predicate ShareOfSpan(length: real, stored: Option<real>, default: real, span: real) {
    length == (match stored case Some(share) => share * span case None => default * span)
  }

  /** A text node against the option it draws: what the customer typed, or else the stored text, as designed. */
  ghost predicate DrawsText(t: SceneText, d: TextDesign, value: Option<string>, vbW: real, vbH: real) {
    && (match value
        case Some(typed) => t.text == typed
        case None => (match d.text case Some(sample) => t.text == sample case None => t.text == ""))
    && t.font == d.font && t.bold == d.bold && t.italic == d.italic
    && (t.align == match d.align case Some(a) => a case None => Center)
    && (t.valign == match d.valign case Some(v) => v case None => Middle)
    && t.color == (if d.color != "" then d.color else "#000000")
    && ShareOfSpan(t.cx, d.xPct, 0.5, vbW) && ShareOfSpan(t.cy, d.yPct, 0.5, vbH)
    && ShareOfSpan(t.w, if d.wPct == Some(0.0) then None else d.wPct, 0.5, vbW)
    && ShareOfSpan(t.h, d.hPct, 0.0, vbH) && ShareOfSpan(t.fontSize, d.sizePct, 0.0, vbH)
    && ShareOfSpan(t.letterSpacing, d.letterSpacing, 0.0, vbH)
    && (t.rot == match d.rot case Some(r) => r case None => 0.0)
    && (match d.curve
        case None => t.curve == 0.0
        case Some(c) => t.curve == if c < -100.0 then -100.0 else if c > 100.0 then 100.0 else c)
    && (t.advanceRatio == match d.advanceRatio case Some(r) => (if r > 0.0 then r else 0.0) case None => 0.0)
  }

  lemma ResolvedAsDesigned(d: TextDesign, vbW: real, vbH: real, value: Option<string>)
    ensures DrawsText(ResolveSceneText(d, vbW, vbH, value), d, value, vbW, vbH)
  {
  }

  function ScaledText(k: real, t: SceneText): SceneText {
    t.(fontSize := Scale(k, t.fontSize), cx := Scale(k, t.cx), cy := Scale(k, t.cy),
       w := Scale(k, t.w), h := Scale(k, t.h), letterSpacing := Scale(k, t.letterSpacing))
  }

  lemma TextScales(k: real, d: TextDesign, vbW: real, vbH: real, value: Option<string>)
    ensures ResolveSceneText(d, Scale(k, vbW), Scale(k, vbH), value)
      == ScaledText(k, ResolveSceneText(d, vbW, vbH, value))
  {
    ScaleCompose(k, d.sizePct.GetOr(0.0), vbH);
    ScaleCompose(k, d.xPct.GetOr(0.5), vbW);
    ScaleCompose(k, d.yPct.GetOr(0.5), vbH);
    ScaleCompose(k, WidthShare(d), vbW);
    ScaleCompose(k, d.hPct.GetOr(0.0), vbH);
    ScaleCompose(k, d.letterSpacing.GetOr(0.0), vbH);
    hide Scale, WidthShare;
  }

  // ---------------------------------------------------------------- the scene

  /** A framed image carries its clip frame. */
  datatype Frame = Frame(x: real, y: real, w: real, h: real)

  datatype SceneImage = SceneImage(
    href: string, x: real, y: real, w: real, h: real, cx: real, cy: real, rot: real, opacity: real,
    shape: Shape, shapeHref: Option<string>, innerRot: real, frame: Option<Frame>)

  datatype SceneGroup = SceneGroup(key: string, visible: bool, images: seq<SceneImage>, texts: seq<SceneText>)

  datatype DesignScene = DesignScene(
    width: real, height: real, backgroundHref: Option<string>, groups: seq<SceneGroup>, letterbox: Letterbox)

  datatype GroupInput = GroupInput(key: string, layers: seq<Layer>, visible: bool)

  datatype TextInput = TextInput(key: string, design: TextDesign, value: Option<string>)

  datatype SceneInput = SceneInput(
    width: real, height: real, backgroundHref: Option<string>, groups: seq<GroupInput>,
    textOptions: seq<TextInput>, authoring: Option<Canvas>)
  {
    predicate NonDegenerate() {
      forall g, l :: g in groups && l in g.layers ==> l.NonDegenerate()
    }
  }

  function ImageOf(l: Layer, vbW: real, vbH: real): SceneImage
    requires l.NonDegenerate() && vbW != 0.0 && vbH != 0.0
  {
    var r, shape := LayerRect(l, vbW, vbH), l.EffectiveShape();
    var opacity := l.opacity.GetOr(100.0) / 100.0;
    if shape == NoShape then
      SceneImage(l.src, r.x, r.y, r.w, r.h, r.cx, r.cy, r.rot, opacity, shape, None, 0.0, None)
    else
      var c := l.UsableCrop();
      var innerStyle := if c.Some? then c.value.style.GetOr(Free) else Cover;
      var innerRot := if innerStyle == Free && c.Some? then c.value.rot.GetOr(0.0) else 0.0;
      var innerOpacity := (if c.Some? then c.value.opacity.GetOr(100.0) else 100.0) / 100.0;
      var (x, y, w, h) := FrameImageRect(l, r.x, r.y, r.w, r.h);
      SceneImage(l.src, x, y, w, h, r.cx, r.cy, r.rot, opacity * innerOpacity, shape,
                 if shape == ImageMask then l.shapeSrc else None, innerRot, Some(Frame(r.x, r.y, r.w, r.h)))
  }

  /** The visible layers of a group, resolved in order. */
  function ImagesOf(layers: seq<Layer>, vbW: real, vbH: real): seq<SceneImage>
    requires (forall l :: l in layers ==> l.NonDegenerate()) && vbW != 0.0 && vbH != 0.0
  {
    if layers == [] then []
    else (if layers[0].visible then [ImageOf(layers[0], vbW, vbH)] else []) + ImagesOf(layers[1..], vbW, vbH)
  }

  function BuildScene(input: SceneInput): DesignScene
    requires input.NonDegenerate()
  {
    var width := if input.width == 0.0 then 1.0 else input.width;
    var height := if input.height == 0.0 then 1.0 else input.height;
    var choices := seq(|input.groups|, i requires 0 <= i < |input.groups| =>
      SceneGroup(input.groups[i].key, input.groups[i].visible, ImagesOf(input.groups[i].layers, width, height), []));
    var texts := seq(|input.textOptions|, i requires 0 <= i < |input.textOptions| =>
      SceneGroup(input.textOptions[i].key, true, [],
                 [ResolveSceneText(input.textOptions[i].design, width, height, input.textOptions[i].value)]));
    DesignScene(width, height, input.backgroundHref, choices + texts, LetterboxFor(input.authoring, width, height))
  }

  function VisibleOf(layers: seq<Layer>): seq<Layer> {
    if layers == [] then []
    else (if layers[0].visible then [layers[0]] else []) + VisibleOf(layers[1..])
  }

  function PercentOr100(percent: Option<real>): real { if percent.Some? then percent.value else 100.0 }

  /** The image shows its layer: unclipped on the layer's rectangle, or behind a frame that is that rectangle. */
  ghost predicate Shows(m: SceneImage, l: Layer, vbW: real, vbH: real)
    requires l.NonDegenerate() && vbW != 0.0 && vbH != 0.0
  {
    var r := LayerRect(l, vbW, vbH);
    && m.href == l.src && m.cx == r.cx && m.cy == r.cy && m.rot == r.rot
    && (if Unframed(l) then
          && m.shape == NoShape && m.shapeHref.None? && m.frame.None?
          && (m.x, m.y, m.w, m.h) == (r.x, r.y, r.w, r.h) && m.innerRot == 0.0
          && m.opacity * 100.0 == PercentOr100(l.opacity)
        else
          && l.shape == Some(m.shape) && m.shapeHref == (if m.shape == ImageMask then l.shapeSrc else None)
          && m.frame == Some(Frame(r.x, r.y, r.w, r.h)) && (m.x, m.y, m.w, m.h) == FrameImageRect(l, r.x, r.y, r.w, r.h)
          && (match l.crop
              case Some(Crop(style, _, _, Some(_), rot, opacity)) =>
                && m.innerRot == (if (style.None? || style == Some(Free)) && rot.Some? then rot.value else 0.0)
                && m.opacity * 10000.0 == PercentOr100(l.opacity) * PercentOr100(opacity)
              case _ => m.innerRot == 0.0 && m.opacity * 100.0 == PercentOr100(l.opacity)))
  }

  lemma ImageShows(l: Layer, vbW: real, vbH: real)
    requires l.NonDegenerate() && vbW != 0.0 && vbH != 0.0
    ensures Shows(ImageOf(l, vbW, vbH), l, vbW, vbH)
  {
    ShapeKeptExactly(l);
    hide LayerRect, FrameImageRect, Unframed, Layer.NonDegenerate;
  }

  lemma {:induction false} ImagesShowVisible(layers: seq<Layer>, vbW: real, vbH: real)
    requires (forall l :: l in layers ==> l.NonDegenerate()) && vbW != 0.0 && vbH != 0.0
    ensures forall l :: l in VisibleOf(layers) ==> l in layers
    ensures |ImagesOf(layers, vbW, vbH)| == |VisibleOf(layers)|
    ensures forall k :: 0 <= k < |VisibleOf(layers)| ==>
      VisibleOf(layers)[k].NonDegenerate() && Shows(ImagesOf(layers, vbW, vbH)[k], VisibleOf(layers)[k], vbW, vbH)
  {
    hide Shows, ImageOf, Layer.NonDegenerate;
    if layers != [] {
      ImagesShowVisible(layers[1..], vbW, vbH);
      ImageShows(layers[0], vbW, vbH);
    }
  }

  /**
   Choice groups in order, each with its visible layers in order, then one visible group per text option
   with the one text it designs. A canvas dimension of zero counts as one.
   */
  lemma SceneDrawsVisibleLayers(input: SceneInput, g: nat)
    requires input.NonDegenerate()
    ensures var s := BuildScene(input);
      && s.width == (if input.width != 0.0 then input.width else 1.0)
      && s.height == (if input.height != 0.0 then input.height else 1.0)
      && s.backgroundHref == input.backgroundHref
      && s.letterbox == LetterboxFor(input.authoring, s.width, s.height)
      && |s.groups| == |input.groups| + |input.textOptions|
      && (g < |input.groups| ==>
            var visible := VisibleOf(input.groups[g].layers);
            && s.groups[g].key == input.groups[g].key && s.groups[g].visible == input.groups[g].visible
            && s.groups[g].texts == [] && |s.groups[g].images| == |visible|
            && forall k :: 0 <= k < |visible| ==>
                 visible[k].NonDegenerate() && Shows(s.groups[g].images[k], visible[k], s.width, s.height))
      && (g < |input.textOptions| ==>
            var group, option := s.groups[|input.groups| + g], input.textOptions[g];
            && group.key == option.key && group.visible && group.images == [] && |group.texts| == 1
            && DrawsText(group.texts[0], option.design, option.value, s.width, s.height))
  {
    hide Shows, ImagesOf, VisibleOf, ResolveSceneText, LetterboxFor, Layer.NonDegenerate, DrawsText;
    var s := BuildScene(input);
    if g < |input.groups| {
      ImagesShowVisible(input.groups[g].layers, s.width, s.height);
    }
    if g < |input.textOptions| {
      ResolvedAsDesigned(input.textOptions[g].design, s.width, s.height, input.textOptions[g].value);
    }
  }

  function ScaledImage(k: real, m: SceneImage): SceneImage {
    m.(x := Scale(k, m.x), y := Scale(k, m.y), w := Scale(k, m.w), h := Scale(k, m.h),
       cx := Scale(k, m.cx), cy := Scale(k, m.cy),
       frame := if m.frame.None? then None
                else var f := m.frame.value; Some(Frame(Scale(k, f.x), Scale(k, f.y), Scale(k, f.w), Scale(k, f.h))))
  }

  function ScaledGroup(k: real, g: SceneGroup): SceneGroup {
    g.(images := seq(|g.images|, i requires 0 <= i < |g.images| => ScaledImage(k, g.images[i])),
       texts := seq(|g.texts|, i requires 0 <= i < |g.texts| => ScaledText(k, g.texts[i])))
  }

  /** Every length times `k`; every angle, opacity, shape and curve as it was. */
  function ScaledScene(k: real, s: DesignScene): DesignScene {
    DesignScene(Scale(k, s.width), Scale(k, s.height), s.backgroundHref,
                seq(|s.groups|, i requires 0 <= i < |s.groups| => ScaledGroup(k, s.groups[i])),
                ScaledLetterbox(k, s.letterbox))
  }

  lemma ImageScales(k: real, l: Layer, vbW: real, vbH: real)
    requires k > 0.0 && l.NonDegenerate() && vbW != 0.0 && vbH != 0.0
    ensures Scale(k, vbW) != 0.0 && Scale(k, vbH) != 0.0
    ensures ImageOf(l, Scale(k, vbW), Scale(k, vbH)) == ScaledImage(k, ImageOf(l, vbW, vbH))
  {
    LayerRectScales(k, l, vbW, vbH);
    var r := LayerRect(l, vbW, vbH);
    FrameImageRectScales(k, l, r.x, r.y, r.w, r.h);
    hide Scale, LayerRect, FrameImageRect, Layer.EffectiveShape, Layer.UsableCrop;
  }

  lemma {:induction false} ImagesScale(k: real, layers: seq<Layer>, vbW: real, vbH: real)
    requires k > 0.0 && (forall l :: l in layers ==> l.NonDegenerate()) && vbW != 0.0 && vbH != 0.0
    ensures Scale(k, vbW) != 0.0 && Scale(k, vbH) != 0.0
    ensures var images := ImagesOf(layers, vbW, vbH);
      ImagesOf(layers, Scale(k, vbW), Scale(k, vbH))
        == seq(|images|, i requires 0 <= i < |images| => ScaledImage(k, images[i]))
  {
    ScaleNonZero(k, vbW);
    ScaleNonZero(k, vbH);
    if layers != [] {
      ImageScales(k, layers[0], vbW, vbH);
      ImagesScale(k, layers[1..], vbW, vbH);
      hide Scale, ScaledImage, ImageOf;
    }
  }

  /**
   Building a design on a canvas `k` times as large gives exactly the scene `k` times as
   large: five styles, three frame geometries, inner crops, text nodes and the letterbox.
   */
  lemma BuildSceneScales(k: real, input: SceneInput)
    requires k > 0.0 && input.NonDegenerate() && input.width != 0.0 && input.height != 0.0
    ensures BuildScene(input.(width := Scale(k, input.width), height := Scale(k, input.height)))
         == ScaledScene(k, BuildScene(input))
  {
    var input' := input.(width := Scale(k, input.width), height := Scale(k, input.height));
    var s, s' := BuildScene(input), BuildScene(input');
    ScaleNonZero(k, input.width);
    ScaleNonZero(k, input.height);
    LetterboxScales(k, input.authoring, input.width, input.height);
    var n := |input.groups|;
    forall i | 0 <= i < |s.groups| ensures s'.groups[i] == ScaledGroup(k, s.groups[i]) {
      if i < n {
        ImagesScale(k, input.groups[i].layers, input.width, input.height);
      } else {
        var t := input.textOptions[i - n];
        TextScales(k, t.design, input.width, input.height, t.value);
      }
    }
    hide Scale, ImagesOf, ResolveSceneText, LetterboxFor, ScaledGroup;
    assert s'.groups == ScaledScene(k, s).groups;
  }

  // ---------------------------------------------------------------- flat text in its box

  function FlatBlockFirstY(valign: VAlign, cy: real, boxH: real, lineCount: nat, lineH: real): real {
    if !(boxH > 0.0) || valign == Middle then cy - Scale((lineCount - 1) as real, lineH) / 2.0
    else
      var top := cy - boxH / 2.0;
      if valign == Top then top + lineH / 2.0 else top + boxH - Scale(lineCount as real, lineH) + lineH / 2.0
  }

  datatype FlatLayout = FlatLayout(
    sized: Sized, lines: seq<string>, anchorX: real, lineH: real, firstY: real)
  {
    /** Lines are centred on their baselines, one line height apart. */
    function BlockTop(): real { firstY - lineH / 2.0 }
    function BlockBottom(): real { firstY + Scale((|lines| - 1) as real, lineH) + lineH / 2.0 }
  }

  function FitRequest(t: SceneText): Request {
    Request(t.text, t.fontSize, t.letterSpacing, t.w, t.h, t.advanceRatio)
  }

  /** The flat branch of `serializeTextNode`. */
  function LayOutFlat(t: SceneText): FlatLayout {
    var sized := if t.h > 0.0 then Fitted(FitRequest(t), MIN_FONT_RATIO) else Sized(t.fontSize, t.letterSpacing);
    var lines := Wrapped(Measure(sized.fontSize, sized.letterSpacing, t.w, t.advanceRatio), t.text);
    var anchorX := match t.align
      case Left => t.cx - t.w / 2.0
      case Right => t.cx + t.w / 2.0
      case Center => t.cx;
    var lineH := Scale(LINE_HEIGHT, sized.fontSize);
    FlatLayout(sized, lines, anchorX, lineH, FlatBlockFirstY(t.valign, t.cy, t.h, |lines|, lineH))
  }

  lemma OneLineMore(lines: real, lineH: real)
    ensures Scale(lines + 1.0, lineH) == Scale(lines, lineH) + lineH
  {
  }

  /** A block of lines is inside its box exactly when it is no taller, and touches the edge it is aligned with. */
  lemma BlockInBox(valign: VAlign, cy: real, boxH: real, n: nat, lineH: real)
    requires n >= 1
    ensures var first := FlatBlockFirstY(valign, cy, boxH, n, lineH);
      var top, bottom := first - lineH / 2.0, first + Scale((n - 1) as real, lineH) + lineH / 2.0;
      && bottom - top == Scale(n as real, lineH)
      && (boxH > 0.0 && valign == Top ==> top == cy - boxH / 2.0)
      && (boxH > 0.0 && valign == Bottom ==> bottom == cy + boxH / 2.0)
      && (boxH <= 0.0 || valign == Middle ==> (top + bottom) / 2.0 == cy)
      && (boxH > 0.0 ==>
            (Scale(n as real, lineH) <= boxH <==> cy - boxH / 2.0 <= top && bottom <= cy + boxH / 2.0))
  {
    hide Scale;
    OneLineMore((n - 1) as real, lineH);
  }

  /**
   The drawn block, of lines 1.25 of the font high, has the place its alignment says. It is inside a fixed box
   if and only if the text fits at the shrink floor, a twenty-fifth of its size; without a fixed height the
   merchant's size is kept.
   */
  lemma FlatTextInBox(t: SceneText)
    requires t.w > 0.0 && t.fontSize > 0.0
    ensures var block := LayOutFlat(t);
      var fixed := t.h > 0.0;
      && block.lineH == 1.25 * block.sized.fontSize
      && block.BlockBottom() - block.BlockTop() == LinesHeight(|block.lines|, block.sized.fontSize)
      && (fixed && t.valign == Top ==> block.BlockTop() == t.cy - t.h / 2.0)
      && (fixed && t.valign == Bottom ==> block.BlockBottom() == t.cy + t.h / 2.0)
      && (!fixed || t.valign == Middle ==> (block.BlockTop() + block.BlockBottom()) / 2.0 == t.cy)
      && (!fixed ==> block.sized == Sized(t.fontSize, t.letterSpacing))
      && (fixed ==> (FitRequest(t).Fits(t.fontSize / 25.0) <==>
            t.cy - t.h / 2.0 <= block.BlockTop() && block.BlockBottom() <= t.cy + t.h / 2.0))
  {
    var block := LayOutFlat(t);
    if t.h > 0.0 {
      FloorShare(FitRequest(t), MIN_FONT_RATIO);
      FitSucceedsExactly(FitRequest(t), MIN_FONT_RATIO);
      LaidOutAsFitted(t);
    }
    hide Fitted, Wrapped, LinesHeight, FlatBlockFirstY, Request.SpacingAt, Request.Floor, Request.Fits;
    DrawnAsMeasured(|block.lines|, block.sized.fontSize);
    BlockInBox(t.valign, t.cy, t.h, |block.lines|, block.lineH);
  }

  /** Where a drawn line begins and ends, from its anchor. */
  function LineExtent(t: SceneText, line: string): (real, real) {
    var block := LayOutFlat(t);
    var length := EstimateTextLength(line, block.sized.fontSize, block.sized.letterSpacing, t.advanceRatio);
    match t.align
    case Left => (block.anchorX, block.anchorX + length)
    case Right => (block.anchorX - length, block.anchorX)
    case Center => (block.anchorX - length / 2.0, block.anchorX + length / 2.0)
  }

  /**
   A drawn line that is not folded back by its letter spacing is between the sides of its box, for
   every alignment, exactly when it has two code points or more or one of them is no wider than the box.
   */
  lemma FlatLinesBetweenSides(t: SceneText, line: string)
    requires t.w >= 1.0 && line in LayOutFlat(t).lines
    requires var (left, right) := LineExtent(t, line); left <= right
    ensures var (left, right) := LineExtent(t, line);
      t.cx - t.w / 2.0 <= left && right <= t.cx + t.w / 2.0 <==>
        |line| >= 2 || Scale(Advance(t.advanceRatio), LayOutFlat(t).sized.fontSize) <= t.w
  {
    var block := LayOutFlat(t);
    var m := Measure(block.sized.fontSize, block.sized.letterSpacing, t.w, t.advanceRatio);
    EveryLineSound(m, SplitLines(t.text));
    if |line| <= 1 { LoneGlyph(m, |line|); }
    hide Fitted, WrapAll, RunLength, Scale, FlatBlockFirstY;
  }

  lemma LoneGlyph(m: Measure, n: nat)
    requires n <= 1
    ensures RunLength(n, m.fontSize, m.letterSpacing, m.ratio) == Scale(Advance(m.ratio), m.fontSize)
  {
    hide Advance;
    assert (if n == 0 then 1 else n) == 1;
    assert 1.0 * m.fontSize == m.fontSize && 0.0 * m.letterSpacing == 0.0;
  }

  /** The lines drawn are the lines whose height was compared with the box. */
  lemma LaidOutAsFitted(t: SceneText)
    requires t.h > 0.0 && t.w > 0.0 && t.fontSize > 0.0
    ensures var block := LayOutFlat(t);
      FitRequest(t).Fits(block.sized.fontSize) <==> LinesHeight(|block.lines|, block.sized.fontSize) <= t.h
  {
    FitSucceedsExactly(FitRequest(t), MIN_FONT_RATIO);
    hide Fitted, Wrapped, LinesHeight, Scale, FlatBlockFirstY, Request.SpacingAt, Request.Floor;
  }

  /** Lines are drawn at the line height they were measured at. */
  lemma DrawnAsMeasured(lines: nat, fontSize: real)
    ensures Scale(lines as real, Scale(LINE_HEIGHT, fontSize)) == LinesHeight(lines, fontSize)
  {
  }

  /** The laid-out text of a scaled node is the scaled layout, line for line. */
  lemma FlatLayoutScales(k: real, t: SceneText)
    requires WideEnough(k, t.w)
    ensures var a, b := LayOutFlat(t), LayOutFlat(ScaledText(k, t));
      && b.lines == a.lines
      && b.sized == Sized(Scale(k, a.sized.fontSize), Scale(k, a.sized.letterSpacing))
      && b.anchorX == Scale(k, a.anchorX) && b.lineH == Scale(k, a.lineH) && b.firstY == Scale(k, a.firstY)
  {
    var a := LayOutFlat(t);
    ScaleOrder(k, t.h, 0.0);
    FitIsScaleFree(k, FitRequest(t), MIN_FONT_RATIO);
    LinesScale(k, Measure(t.fontSize, t.letterSpacing, t.w, t.advanceRatio), t.text);
    ScaleCompose(k, LINE_HEIGHT, a.sized.fontSize);
    ScaleLinear(k, t.w, 0.0);
    ScaleLinear(k, t.cx, t.w / 2.0);
    FirstYScales(k, t.valign, t.cy, t.h, |a.lines|, a.lineH);
    hide Scale, Fitted, Wrapped, FlatBlockFirstY;
  }

  lemma FirstYScales(k: real, valign: VAlign, cy: real, boxH: real, n: nat, lineH: real)
    requires k > 0.0
    ensures FlatBlockFirstY(valign, Scale(k, cy), Scale(k, boxH), n, Scale(k, lineH))
         == Scale(k, FlatBlockFirstY(valign, cy, boxH, n, lineH))
  {
    ScaleOrder(k, boxH, 0.0);
    var gaps, all := Scale((n - 1) as real, lineH), Scale(n as real, lineH);
    ScaleCompose(k, (n - 1) as real, lineH);
    ScaleCompose(k, n as real, lineH);
    ScaleLinear(k, gaps, 0.0);
    ScaleLinear(k, lineH, 0.0);
    ScaleLinear(k, boxH, 0.0);
    ScaleLinear(k, cy, gaps / 2.0);
    var top := cy - boxH / 2.0;
    ScaleLinear(k, cy, boxH / 2.0);
    ScaleLinear(k, top, lineH / 2.0);
    ScaleLinear(k, top, boxH);
    ScaleLinear(k, top + boxH, all);
    ScaleLinear(k, top + boxH - all, lineH / 2.0);
    hide Scale;
  }

  // ---------------------------------------------------------------- curved text in its box

  function CurveBoxTop(valign: VAlign, cy: real, boxH: real, arcHeight: real): real {
    if !(boxH > 0.0) || valign == Middle then cy - arcHeight / 2.0
    else if valign == Top then cy - boxH / 2.0
    else cy - boxH / 2.0 + boxH - arcHeight
  }

  /** A fixed box places the arc unclamped; a legacy one keeps it on the canvas. */
  function CurveBoxPlace(t: SceneText, arcW: real, arcH: real, sceneW: real, sceneH: real): (real, real) {
    var left, top := t.cx - arcW / 2.0, CurveBoxTop(t.valign, t.cy, t.h, arcH);
    if t.h > 0.0 then (left, top)
    else (Max(0.0, Min(left, sceneW - arcW)), Max(0.0, Min(top, sceneH - arcH)))
  }

  /** A point of the arc's box where the node is placed. */
  function Placed(place: (real, real), p: (real, real)): (real, real) { (place.0 + p.0, place.1 + p.1) }

  ghost predicate Between(p: (real, real), left: real, top: real, right: real, bottom: real) {
    left <= p.0 <= right && top <= p.1 <= bottom
  }

  /** Where the arc's box is placed: a fixed box holds it, and a legacy one is kept on the canvas. */
  lemma CurvedBoxPlaced(t: SceneText, turn: Arc.Turn, sceneW: real, sceneH: real)
    requires Arc.TurnFor(t.curve, turn) && t.w > 0.0 && t.fontSize >= 0.0
    ensures turn.cosHalf < 1.0
    ensures
      var arc := Arc.TextArcPath(t.text, t.fontSize, t.letterSpacing, t.curve, turn, t.w, t.h, t.advanceRatio).arc;
      var (left, top) := CurveBoxPlace(t, arc.width, arc.height, sceneW, sceneH);
      && (t.h > 0.0 ==>
            && left + arc.width / 2.0 == t.cx
            && (t.valign == Top ==> top == t.cy - t.h / 2.0)
            && (t.valign == Middle ==> top + arc.height / 2.0 == t.cy)
            && (t.valign == Bottom ==> top + arc.height == t.cy + t.h / 2.0))
      && (t.h > 0.0 && Arc.SolvedRadius(t.curve, turn, t.w, t.h, t.fontSize) >= 1.0 ==>
            && t.cx - t.w / 2.0 <= left && left + arc.width <= t.cx + t.w / 2.0
            && t.cy - t.h / 2.0 <= top && top + arc.height <= t.cy + t.h / 2.0)
      && (t.h <= 0.0 && arc.width <= sceneW && arc.height <= sceneH ==>
            && 0.0 <= left && left + arc.width <= sceneW && 0.0 <= top && top + arc.height <= sceneH
            && (0.0 <= t.cx - arc.width / 2.0 && t.cx + arc.width / 2.0 <= sceneW ==> left + arc.width / 2.0 == t.cx)
            && (0.0 <= t.cy - arc.height / 2.0 && t.cy + arc.height / 2.0 <= sceneH ==> top + arc.height / 2.0 == t.cy))
  {
    Arc.CosineBelowOne(t.curve, turn);
    if t.h > 0.0 {
      Arc.CurvedTextInBox(t.text, t.fontSize, t.letterSpacing, t.curve, turn, t.w, t.h, t.advanceRatio);
    }
    hide Arc.TextArcPath, Arc.SolvedRadius;
  }

  /**
   All that is drawn of a curved node is inside its fixed box, wherever it is aligned; of a legacy node whose
   arc is no larger than the canvas, on the canvas. A ring closed before its full turn is the exception.
   */
  lemma CurvedNodeInBox(t: SceneText, turn: Arc.Turn, sceneW: real, sceneH: real, distance: real, s: real, c: real)
    requires Arc.TurnFor(t.curve, turn) && t.w > 0.0 && t.fontSize >= 0.0 && turn.cosHalf < 1.0
    requires var laid :=
        Arc.TextArcPath(t.text, t.fontSize, t.letterSpacing, t.curve, turn, t.w, t.h, t.advanceRatio);
      Arc.Drawn(laid.arc, laid.fontSize, t.curve, turn, distance, s, c) && !Arc.NearlyClosed(t.curve)
    ensures
      var arc := Arc.TextArcPath(t.text, t.fontSize, t.letterSpacing, t.curve, turn, t.w, t.h, t.advanceRatio).arc;
      var p := Placed(CurveBoxPlace(t, arc.width, arc.height, sceneW, sceneH), Arc.Point(arc, t.curve, distance, s, c));
      && (t.h > 0.0 && Arc.SolvedRadius(t.curve, turn, t.w, t.h, t.fontSize) >= 1.0 ==>
            Between(p, t.cx - t.w / 2.0, t.cy - t.h / 2.0, t.cx + t.w / 2.0, t.cy + t.h / 2.0))
      && (t.h <= 0.0 && arc.width <= sceneW && arc.height <= sceneH ==> Between(p, 0.0, 0.0, sceneW, sceneH))
  {
    hide Arc.TextArcPath, Arc.SolvedRadius, Arc.Drawn, Arc.Point, Arc.TurnFor, CurveBoxPlace;
    CurvedBoxPlaced(t, turn, sceneW, sceneH);
    Arc.LaidInside(t.text, t.fontSize, t.letterSpacing, t.curve, turn, t.w, t.h, t.advanceRatio);
  }
}
