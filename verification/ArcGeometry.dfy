/**
 Curved-text geometry: the ring solved from the box, its bounding box, and the size the
 run settles at.

 Sine and cosine are not computed: a `Turn` carries the values at half the swept angle,
 constrained only by what the formulas rely on.
 */
module ArcGeometry {
  import opened Common
  import opened TextGeometry

  const GLYPH_ASCENT: real := 0.8
  const GLYPH_DESCENT: real := 0.22
  const FULL_CIRCLE_THRESHOLD: real := 99.9

  function Square(x: real): real { Scale(x, x) }

  /** Pi, and the sine and cosine of half the angle a curve sweeps. */
  datatype Turn = Turn(pi: real, sinHalf: real, cosHalf: real)

  /** The swept angle, in units of pi. */
  function Sweep(curve: real): (t: real)
    ensures 0.0 < t <= 2.0
    ensures t <= 1.0 <==> Abs(curve) <= 50.0
  {
    Max(0.0001, Min(100.0, Abs(curve)) / 100.0) * 2.0
  }

  /** A hundredth of the curve is the part of a full turn it sweeps, between a ten-thousandth and all of it. */
  lemma SweepExactly(curve: real)
    ensures Sweep(curve) == (if curve >= 100.0 || curve <= -100.0 then 2.0
                             else if -0.01 < curve < 0.01 then 0.0002
                             else if curve > 0.0 then curve / 50.0 else -curve / 50.0)
  {
  }

  function CurveTheta(curve: real, turn: Turn): real { Sweep(curve) * turn.pi }

  /** Length of the path along the ring. */
  function PathLength(radius: real, curve: real, turn: Turn): real { radius * CurveTheta(curve, turn) }

  /** `theta <= Math.PI`: at most half a circle. */
  predicate AtMostHalf(curve: real) { Sweep(curve) <= 1.0 }

  /**
   The half angle lies in (0, pi]: its sine is not negative, its cosine is past a right angle, and is
   minus one at a full turn and there only.
   */
  ghost predicate TurnFor(curve: real, turn: Turn) {
    && turn.pi > 0.0
    && Square(turn.sinHalf) + Square(turn.cosHalf) == 1.0
    && turn.sinHalf >= 0.0 && (turn.cosHalf == -1.0 <==> Sweep(curve) == 2.0)
    && (if AtMostHalf(curve) then turn.sinHalf > 0.0 && turn.cosHalf >= 0.0 else turn.cosHalf < 0.0)
  }

  /** How far glyphs reach outside and inside the ring. */
  function ReachOut(fontSize: real, curve: real): real {
    (if curve >= 0.0 then GLYPH_ASCENT else GLYPH_DESCENT) * fontSize
  }

  function ReachIn(fontSize: real, curve: real): real {
    (if curve >= 0.0 then GLYPH_DESCENT else GLYPH_ASCENT) * fontSize
  }

  lemma CosineBelowOne(curve: real, turn: Turn)
    requires TurnFor(curve, turn)
    ensures turn.cosHalf < 1.0
  {
    if AtMostHalf(curve) {
      PositiveSquare(turn.sinHalf);
      PositiveSquare(turn.cosHalf);
      hide Square;
    }
  }

  // Products of two reals, proved for distinct names and used for squares.
  lemma ProductBounds(a: real, b: real)
    ensures a > 0.0 && b > 0.0 ==> Scale(a, b) > 0.0
    ensures a >= 1.0 && b >= 1.0 ==> Scale(a, b) >= 1.0
  {
    if a >= 1.0 && b >= 1.0 { MulMono(1.0, a, b); }
  }

  lemma PositiveSquare(x: real)
    ensures x > 0.0 ==> Square(x) > 0.0
    ensures x >= 1.0 ==> Square(x) >= 1.0
  {
    ProductBounds(x, x);
    hide Scale;
  }

  /** The largest radius whose glyphs stay within a width. */
  function ByWidth(half: bool, w: real, gOut: real, s: real): real
    requires half ==> s != 0.0
  {
    (if half then w / (2.0 * s) else w / 2.0) - gOut
  }

  /** The largest radius whose glyphs stay within a height. */
  function ByHeight(half: bool, h: real, gOut: real, gIn: real, c: real): real
    requires c < 1.0
  {
    if half then (h - gOut - Scale(gIn, c)) / (1.0 - c) else h / (1.0 - c) - gOut
  }

  /** The radius the box allows, before the one-pixel floor. */
  function SolvedRadius(curve: real, turn: Turn, boxW: real, boxH: real, fontSize: real): real
    requires AtMostHalf(curve) ==> turn.sinHalf != 0.0
    requires turn.cosHalf < 1.0
  {
    var w := if boxW > 0.0 then boxW else fontSize;
    var h := if boxH > 0.0 then boxH else w;
    var gOut, gIn := ReachOut(fontSize, curve), ReachIn(fontSize, curve);
    Min(ByWidth(AtMostHalf(curve), w, gOut, turn.sinHalf), ByHeight(AtMostHalf(curve), h, gOut, gIn, turn.cosHalf))
  }

  function RadiusForBox(curve: real, turn: Turn, boxW: real, boxH: real, fontSize: real): (r: real)
    requires AtMostHalf(curve) ==> turn.sinHalf != 0.0
    requires turn.cosHalf < 1.0
    ensures r >= 1.0
  {
    Max(1.0, SolvedRadius(curve, turn, boxW, boxH, fontSize))
  }

  datatype Arc = Arc(
    radius: real, width: real, height: real, cx: real, cy: real,
    startX: real, startY: real, endX: real, endY: real, up: bool, large: bool, fullCircle: bool)

  /** The exact box of an annular sector. */
  function SectorWidth(half: bool, r: real, gOut: real, s: real): real {
    2.0 * (if half then Scale(r + gOut, s) else r + gOut)
  }

  function SectorHeight(half: bool, r: real, gOut: real, gIn: real, c: real): real {
    (r + gOut) - Scale(if half then Max(0.0, r - gIn) else r + gOut, c)
  }

  /** `arcGeometryFromR`: the bounding box of the annular sector and the path's end points. */
  function ArcFromRadius(radius: real, fontSize: real, curve: real, turn: Turn): Arc {
    var gOut, gIn, half := ReachOut(fontSize, curve), ReachIn(fontSize, curve), AtMostHalf(curve);
    var rOut, up := radius + gOut, curve >= 0.0;
    var width := SectorWidth(half, radius, gOut, turn.sinHalf);
    var height := SectorHeight(half, radius, gOut, gIn, turn.cosHalf);
    var cx, cy := width / 2.0, if up then rOut else height - rOut;
    if Abs(curve) >= FULL_CIRCLE_THRESHOLD then
      // Two half circles: down-top-down for an arch, top-down-top for a valley.
      var y := if up then cy + radius else cy - radius;
      Arc(radius, width, height, cx, cy, cx, y, cx, y, up, true, true)
    else
      var y := if up then cy - Scale(radius, turn.cosHalf) else cy + Scale(radius, turn.cosHalf);
      Arc(radius, width, height, cx, cy, cx - Scale(radius, turn.sinHalf), y, cx + Scale(radius, turn.sinHalf), y,
          up, !half, false)
  }

  datatype Laid = Laid(arc: Arc, fontSize: real, letterSpacing: real)

  /** A closed ring reserves one more letter space, so the seam matches the rest. */
  function Seam(curve: real, letterSpacing: real): real {
    if Abs(curve) >= FULL_CIRCLE_THRESHOLD then letterSpacing else 0.0
  }

  function RunWithSeam(text: string, curve: real, fontSize: real, letterSpacing: real, ratio: real): real {
    EstimateTextLength(text, fontSize, letterSpacing, ratio) + Seam(curve, letterSpacing)
  }

  /** The factor by which a run longer than the ring is shrunk. */
  function Shrink(run: real, arcLength: real): (k: real)
    ensures 0.0 <= arcLength ==> 0.0 < k <= 1.0
  {
    if run > arcLength && arcLength > 0.0 then QuotientBelowOne(arcLength, run); arcLength / run else 1.0
  }

  lemma QuotientBelowOne(x: real, y: real)
    requires 0.0 < x < y
    ensures 0.0 < x / y < 1.0
  {
    var q := x / y;
    assert q * y == x;
    PositiveFactor(y, q);
    assert q >= 1.0 ==> (q - 1.0) * y >= 0.0;
  }

  /** `textArcPath`: the ring at the merchant's size, and the run shrunk onto it when it is longer. */
  function TextArcPath(text: string, fontSize: real, letterSpacing: real, curve: real, turn: Turn,
                       boxW: real, boxH: real, ratio: real): Laid
    requires AtMostHalf(curve) ==> turn.sinHalf != 0.0
    requires turn.cosHalf < 1.0
  {
    var radius := RadiusForBox(curve, turn, boxW, boxH, fontSize);
    var arcLength := PathLength(radius, curve, turn);
    var run := RunWithSeam(text, curve, fontSize, letterSpacing, ratio);
    var k := Shrink(run, arcLength);
    Laid(ArcFromRadius(radius, Scale(k, fontSize), curve, turn), Scale(k, fontSize), Scale(k, letterSpacing))
  }

  // ---------------------------------------------------------------- the ring fits its box

  lemma QuotientTimes(x: real, d: real)
    requires d > 0.0
    ensures Scale(x / d, d) == x
  {
  }

  lemma QuotientAtLeast(x: real, d: real, r: real)
    requires d > 0.0
    ensures r <= x / d <==> Scale(r, d) <= x
  {
    QuotientTimes(x, d);
    var q := x / d;
    StrictScale(r, q, d);
    StrictScale(q, r, d);
    hide Scale;
  }

  lemma StrictScale(x: real, y: real, z: real)
    requires 0.0 < z
    ensures x < y ==> Scale(x, z) < Scale(y, z)
  {
    if x < y { PositiveProduct(y - x, z); }
  }

  lemma Distribute(r: real, x: real, y: real)
    ensures Scale(r, 1.0 - x) == r - Scale(r, x) && Scale(r, 2.0 * x) == 2.0 * Scale(r, x)
    ensures Scale(r - y, x) == Scale(r, x) - Scale(y, x)
  {
  }

  lemma ScaleMono(x: real, y: real, z: real)
    requires x <= y && 0.0 <= z
    ensures Scale(x, z) <= Scale(y, z)
  {
    MulMono(x, y, z);
  }

  /** The annulus of radius `r` is within the width exactly up to `ByWidth`. */
  lemma WidthExactly(half: bool, w: real, gOut: real, s: real, r: real)
    requires half ==> s > 0.0
    ensures SectorWidth(half, r, gOut, s) <= w <==> r <= ByWidth(half, w, gOut, s)
  {
    if half {
      QuotientAtLeast(w, 2.0 * s, r + gOut);
      Distribute(r + gOut, s, 0.0);
      hide Scale;
    }
  }

  /** And within the height up to `ByHeight`; exactly so while the inner radius is not clamped at zero. */
  lemma HeightExactly(half: bool, h: real, gOut: real, gIn: real, c: real, r: real)
    requires r >= 0.0 && (if half then 0.0 <= c < 1.0 else c < 0.0)
    ensures r <= ByHeight(half, h, gOut, gIn, c) ==> SectorHeight(half, r, gOut, gIn, c) <= h
    ensures !half || r >= gIn ==>
      (SectorHeight(half, r, gOut, gIn, c) <= h <==> r <= ByHeight(half, h, gOut, gIn, c))
  {
    if half {
      QuotientAtLeast(h - gOut - Scale(gIn, c), 1.0 - c, r);
      Distribute(r, c, gIn);
      ScaleOrder(1.0, 0.0, 0.0);
      ScaleMono(if r < gIn then r else gIn, gIn, c);
      assert Scale(0.0, c) == 0.0;
      hide Scale;
    } else {
      QuotientAtLeast(h, 1.0 - c, r + gOut);
      Distribute(r + gOut, c, 0.0);
      hide Scale;
    }
  }

  /**
   `radiusForBox` solves for the largest ring: a radius whose inner edge is not clamped
   keeps its annulus inside the box if and only if it is at most the solved one.
   */
  lemma SolvedRadiusIsLargest(curve: real, turn: Turn, boxW: real, boxH: real, fontSize: real, r: real)
    requires TurnFor(curve, turn) && boxW > 0.0 && boxH > 0.0
    requires r >= 0.0 && r >= (if curve >= 0.0 then 0.22 else 0.8) * fontSize
    ensures turn.cosHalf < 1.0
    ensures var arc := ArcFromRadius(r, fontSize, curve, turn);
      arc.width <= boxW && arc.height <= boxH <==> r <= SolvedRadius(curve, turn, boxW, boxH, fontSize)
  {
    CosineBelowOne(curve, turn);
    var gOut, gIn := ReachOut(fontSize, curve), ReachIn(fontSize, curve);
    WidthExactly(AtMostHalf(curve), boxW, gOut, turn.sinHalf, r);
    HeightExactly(AtMostHalf(curve), boxH, gOut, gIn, turn.cosHalf, r);
    hide ByWidth, ByHeight, SectorWidth, SectorHeight, ReachOut, ReachIn;
  }

  /** A box saved without a height is as high as it is wide, and one without a width as wide as the font. */
  lemma UnsavedBox(curve: real, turn: Turn, boxW: real, boxH: real, fontSize: real)
    requires TurnFor(curve, turn) && turn.cosHalf < 1.0
    ensures boxW <= 0.0 && fontSize > 0.0 ==>
      SolvedRadius(curve, turn, boxW, boxH, fontSize) == SolvedRadius(curve, turn, fontSize, boxH, fontSize)
    ensures boxW > 0.0 && boxH <= 0.0 ==>
      SolvedRadius(curve, turn, boxW, boxH, fontSize) == SolvedRadius(curve, turn, boxW, boxW, fontSize)
  {
  }

  /** A smaller reach takes a smaller box on the same ring. */
  lemma SectorGrows(half: bool, r: real, gOut: real, gIn: real, gOut': real, gIn': real, s: real, c: real)
    requires s >= 0.0 && (if half then 0.0 <= c else c < 0.0) && gOut <= gOut' && gIn <= gIn'
    ensures SectorWidth(half, r, gOut, s) <= SectorWidth(half, r, gOut', s)
    ensures SectorHeight(half, r, gOut, gIn, c) <= SectorHeight(half, r, gOut', gIn', c)
  {
    if half {
      ScaleMono(r + gOut, r + gOut', s);
      ScaleMono(Max(0.0, r - gIn'), Max(0.0, r - gIn), c);
    } else {
      ScaleMono(r + gOut, r + gOut', 1.0 - c);
      Distribute(r + gOut, c, 0.0);
      Distribute(r + gOut', c, 0.0);
    }
    hide Scale;
  }

  lemma SmallerFontSmallerArc(curve: real, turn: Turn, r: real, small: real, large: real)
    requires TurnFor(curve, turn) && small <= large
    ensures ArcFromRadius(r, small, curve, turn).width <= ArcFromRadius(r, large, curve, turn).width
    ensures ArcFromRadius(r, small, curve, turn).height <= ArcFromRadius(r, large, curve, turn).height
  {
    SectorGrows(AtMostHalf(curve), r, ReachOut(small, curve), ReachIn(small, curve),
                ReachOut(large, curve), ReachIn(large, curve), turn.sinHalf, turn.cosHalf);
    hide SectorWidth, SectorHeight, ReachOut, ReachIn;
  }

  // ---------------------------------------------------------------- the run fits the ring

  lemma RunShrinks(k: real, text: string, curve: real, fontSize: real, letterSpacing: real, ratio: real)
    ensures RunWithSeam(text, curve, Scale(k, fontSize), Scale(k, letterSpacing), ratio)
         == Scale(k, RunWithSeam(text, curve, fontSize, letterSpacing, ratio))
  {
    RunScales(k, |text|, fontSize, letterSpacing, ratio);
    ScaleLinear(k, EstimateTextLength(text, fontSize, letterSpacing, ratio), Seam(curve, letterSpacing));
    ScaleOrder(1.0, 0.0, 0.0);
    assert Scale(k, 0.0) == 0.0;
    hide RunLength, Scale;
  }

  lemma PathLengthPositive(curve: real, turn: Turn, radius: real)
    requires turn.pi > 0.0 && radius >= 1.0
    ensures PathLength(radius, curve, turn) > 0.0
  {
    assert Sweep(curve) * turn.pi > 0.0;
  }

  /** Letters laid on a ring, with one more letter space to close it. */
  lemma RunExactly(text: string, curve: real, fontSize: real, letterSpacing: real, ratio: real)
    ensures RunWithSeam(text, curve, fontSize, letterSpacing, ratio)
         == EstimateTextLength(text, fontSize, letterSpacing, ratio)
            + if curve >= 99.9 || curve <= -99.9 then letterSpacing else 0.0
  {
  }

  lemma PathExactly(radius: real, curve: real, turn: Turn)
    ensures PathLength(radius, curve, turn) == radius * (Sweep(curve) * turn.pi)
  {
  }

  lemma RunSettles(text: string, fontSize: real, letterSpacing: real, curve: real, turn: Turn,
                   boxW: real, boxH: real, ratio: real)
    requires TurnFor(curve, turn) && turn.cosHalf < 1.0
    ensures var laid := TextArcPath(text, fontSize, letterSpacing, curve, turn, boxW, boxH, ratio);
      var path := PathLength(laid.arc.radius, curve, turn);
      var run := RunWithSeam(text, curve, fontSize, letterSpacing, ratio);
      var settled := RunWithSeam(text, curve, laid.fontSize, laid.letterSpacing, ratio);
      && laid.arc.radius == RadiusForBox(curve, turn, boxW, boxH, fontSize)
      && settled <= path
      && (run <= path ==> settled == run && laid.fontSize == fontSize && laid.letterSpacing == letterSpacing)
      && (run > path ==> settled == path)
  {
    var radius := RadiusForBox(curve, turn, boxW, boxH, fontSize);
    var run, path := RunWithSeam(text, curve, fontSize, letterSpacing, ratio), PathLength(radius, curve, turn);
    PathLengthPositive(curve, turn, radius);
    RunShrinks(Shrink(run, path), text, curve, fontSize, letterSpacing, ratio);
    ShrinkOnto(run, path);
    RadiusKept(radius, Scale(Shrink(run, path), fontSize), curve, turn);
    hide RunWithSeam, RadiusForBox, PathLength, Scale, Shrink, ArcFromRadius;
  }

  /**
   The ring is the solved one, or one pixel. The settled run, with its seam on a closed ring, is never longer
   than the swept part of the ring: it is left as it was when it is not, and fills it when it was shrunk.
   */
  lemma SettledRunFitsRing(text: string, fontSize: real, letterSpacing: real, curve: real, turn: Turn,
                           boxW: real, boxH: real, ratio: real)
    requires TurnFor(curve, turn)
    ensures turn.cosHalf < 1.0
    ensures var laid := TextArcPath(text, fontSize, letterSpacing, curve, turn, boxW, boxH, ratio);
      var seam, solved := curve >= 99.9 || curve <= -99.9, SolvedRadius(curve, turn, boxW, boxH, fontSize);
      var path := laid.arc.radius * (Sweep(curve) * turn.pi);
      var run := EstimateTextLength(text, fontSize, letterSpacing, ratio) + (if seam then letterSpacing else 0.0);
      var settled := EstimateTextLength(text, laid.fontSize, laid.letterSpacing, ratio)
                     + (if seam then laid.letterSpacing else 0.0);
      && laid.arc.radius == (if solved > 1.0 then solved else 1.0)
      && settled <= path
      && (run <= path ==> settled == run && laid.fontSize == fontSize && laid.letterSpacing == letterSpacing)
      && (run > path ==> settled == path)
  {
    hide TextArcPath, RunWithSeam, PathLength, EstimateTextLength, SolvedRadius, Sweep;
    CosineBelowOne(curve, turn);
    var laid := TextArcPath(text, fontSize, letterSpacing, curve, turn, boxW, boxH, ratio);
    RunSettles(text, fontSize, letterSpacing, curve, turn, boxW, boxH, ratio);
    RunExactly(text, curve, fontSize, letterSpacing, ratio);
    RunExactly(text, curve, laid.fontSize, laid.letterSpacing, ratio);
    PathExactly(laid.arc.radius, curve, turn);
  }

  lemma ShrinkOnto(run: real, path: real)
    requires path > 0.0
    ensures 0.0 < Shrink(run, path) <= 1.0
    ensures Scale(Shrink(run, path), run) == if run > path then path else run
    ensures run <= path ==> forall x :: Scale(Shrink(run, path), x) == x
  {
  }

  lemma ShrunkFont(k: real, fontSize: real)
    requires 0.0 < k <= 1.0 && fontSize >= 0.0
    ensures 0.0 <= Scale(k, fontSize) <= fontSize
  {
    MulMono(k, 1.0, fontSize);
  }

  /** The annulus at the merchant's size is inside the box whenever the solved radius is not under one pixel. */
  lemma RingInBox(curve: real, turn: Turn, boxW: real, boxH: real, fontSize: real)
    requires TurnFor(curve, turn) && boxW > 0.0 && boxH > 0.0
    ensures turn.cosHalf < 1.0
    ensures SolvedRadius(curve, turn, boxW, boxH, fontSize) >= 1.0 ==>
      var arc := ArcFromRadius(RadiusForBox(curve, turn, boxW, boxH, fontSize), fontSize, curve, turn);
      arc.width <= boxW && arc.height <= boxH
  {
    CosineBelowOne(curve, turn);
    var radius := RadiusForBox(curve, turn, boxW, boxH, fontSize);
    var gOut, gIn := ReachOut(fontSize, curve), ReachIn(fontSize, curve);
    WidthExactly(AtMostHalf(curve), boxW, gOut, turn.sinHalf, radius);
    HeightExactly(AtMostHalf(curve), boxH, gOut, gIn, turn.cosHalf, radius);
    hide ByWidth, ByHeight, SectorWidth, SectorHeight, ReachOut, ReachIn;
  }

  /** Where glyphs are drawn: between 0.22 below and 0.8 above the ring, across the swept angle or all round. */
  ghost predicate Drawn(arc: Arc, fontSize: real, curve: real, turn: Turn, distance: real, s: real, c: real) {
    var above, below := if curve >= 0.0 then 0.8 else 0.22, if curve >= 0.0 then 0.22 else 0.8;
    && Square(s) + Square(c) == 1.0 && (arc.fullCircle || c >= turn.cosHalf)
    && 0.0 <= distance && arc.radius - below * fontSize <= distance <= arc.radius + above * fontSize
  }

  /** The drawn point at a distance from the centre, its angle measured from the middle of the run. */
  function Point(arc: Arc, curve: real, distance: real, s: real, c: real): (real, real) {
    (arc.cx + Scale(distance, s), if curve >= 0.0 then arc.cy - Scale(distance, c) else arc.cy + Scale(distance, c))
  }

  ghost predicate Within(p: (real, real), w: real, h: real) { 0.0 <= p.0 <= w && 0.0 <= p.1 <= h }

  /** The ring is closed but swept by less than a full turn. */
  ghost predicate NearlyClosed(curve: real) { 99.9 <= curve < 100.0 || -100.0 < curve <= -99.9 }

  lemma UnitCoordinates(s: real, c: real)
    requires Square(s) + Square(c) == 1.0
    ensures -1.0 <= s <= 1.0 && -1.0 <= c <= 1.0
  {
    assert s * s <= 1.0 && c * c <= 1.0;
    assert s > 1.0 ==> s * s > 1.0;
    assert s < -1.0 ==> s * s > 1.0;
    assert c > 1.0 ==> c * c > 1.0;
    assert c < -1.0 ==> c * c > 1.0;
  }

  /** Within a right angle on either side, the sine is at most that of the end. */
  lemma SineBounded(s: real, c: real, s1: real, c1: real)
    requires Square(s) + Square(c) == 1.0 && Square(s1) + Square(c1) == 1.0
    requires 0.0 <= c1 <= c && 0.0 <= s1
    ensures -s1 <= s <= s1
  {
    LargerSquare(c1, c);
    LargerSquare(s1, s);
    LargerSquare(s1, -s);
    SquareOfProduct(1.0, s);
    hide Square;
  }

  lemma LargerSquare(x: real, y: real)
    requires 0.0 <= x
    ensures x < y ==> Square(x) < Square(y)
  {
    if x < y {
      MulMono(x, y, x);
      StrictScale(x, y, y);
    }
  }

  lemma Reaches(distance: real, outer: real, x: real, bound: real)
    requires 0.0 <= distance <= outer && -bound <= x <= bound && 0.0 <= bound
    ensures -Scale(outer, bound) <= Scale(distance, x) <= Scale(outer, bound)
  {
    MulMono(-bound, x, distance);
    MulMono(x, bound, distance);
    MulMono(distance, outer, bound);
  }

  /** Every drawn point of an open arc, or of a full turn, is inside the arc's own box. */
  lemma DrawnInside(radius: real, fontSize: real, curve: real, turn: Turn, distance: real, s: real, c: real)
    requires TurnFor(curve, turn) && radius >= 0.0 && fontSize >= 0.0 && !NearlyClosed(curve)
    requires Drawn(ArcFromRadius(radius, fontSize, curve, turn), fontSize, curve, turn, distance, s, c)
    ensures var arc := ArcFromRadius(radius, fontSize, curve, turn);
      Within(Point(arc, curve, distance, s, c), arc.width, arc.height)
  {
    var gOut, gIn, half := ReachOut(fontSize, curve), ReachIn(fontSize, curve), AtMostHalf(curve);
    UnitCoordinates(s, c);
    UnitCoordinates(turn.sinHalf, turn.cosHalf);
    assert c >= turn.cosHalf;
    if half { SineBounded(s, c, turn.sinHalf, turn.cosHalf); }
    Reaches(distance, radius + gOut, s, if half then turn.sinHalf else 1.0);
    SectorBounds(half, radius, gOut, gIn, turn.cosHalf, distance, c);
    hide Square;
  }

  lemma SectorBounds(half: bool, r: real, gOut: real, gIn: real, c1: real, distance: real, c: real)
    requires r >= 0.0 && gOut >= 0.0 && gIn >= 0.0 && c1 <= c <= 1.0 && (if half then 0.0 <= c1 else c1 < 0.0)
    requires 0.0 <= distance && r - gIn <= distance <= r + gOut
    ensures 0.0 <= r + gOut - Scale(distance, c) <= SectorHeight(half, r, gOut, gIn, c1)
  {
    hide Scale;
    ScaleMonoRight(distance, c, 1.0);
    ScaleMonoRight(distance, c1, c);
    if half {
      ScaleMono(Max(0.0, r - gIn), distance, c1);
    } else {
      ScaleFalls(distance, r + gOut, c1);
    }
  }

  lemma ScaleMonoRight(k: real, x: real, y: real)
    requires x <= y && 0.0 <= k
    ensures Scale(k, x) <= Scale(k, y) && Scale(k, 1.0) == k
  {
    MulMono(x, y, k);
  }

  lemma ScaleFalls(x: real, y: real, z: real)
    requires x <= y && z <= 0.0
    ensures Scale(y, z) <= Scale(x, z)
  {
    MulMono(x, y, -z);
    assert x * -z == -(x * z) && y * -z == -(y * z);
  }

  /** The same ring is inside the box after the run has settled on it. */
  lemma SettledRingInBox(text: string, fontSize: real, letterSpacing: real, curve: real, turn: Turn,
                         boxW: real, boxH: real, ratio: real)
    requires TurnFor(curve, turn) && boxW > 0.0 && boxH > 0.0 && fontSize >= 0.0
    ensures turn.cosHalf < 1.0
    ensures SolvedRadius(curve, turn, boxW, boxH, fontSize) >= 1.0 ==>
      var arc := TextArcPath(text, fontSize, letterSpacing, curve, turn, boxW, boxH, ratio).arc;
      arc.width <= boxW && arc.height <= boxH
  {
    RingInBox(curve, turn, boxW, boxH, fontSize);
    var radius := RadiusForBox(curve, turn, boxW, boxH, fontSize);
    var run, path := RunWithSeam(text, curve, fontSize, letterSpacing, ratio), PathLength(radius, curve, turn);
    PathLengthPositive(curve, turn, radius);
    ShrinkOnto(run, path);
    ShrunkFont(Shrink(run, path), fontSize);
    SmallerFontSmallerArc(curve, turn, radius, Scale(Shrink(run, path), fontSize), fontSize);
    hide ArcFromRadius, Shrink, RunWithSeam, PathLength, Scale, SolvedRadius, RadiusForBox;
  }

  /** What is drawn of a settled run is inside the arc's own box. */
  lemma LaidInside(text: string, fontSize: real, letterSpacing: real, curve: real, turn: Turn,
                   boxW: real, boxH: real, ratio: real)
    requires TurnFor(curve, turn) && turn.cosHalf < 1.0 && fontSize >= 0.0
    ensures var laid := TextArcPath(text, fontSize, letterSpacing, curve, turn, boxW, boxH, ratio);
      && laid.arc.radius >= 1.0 && 0.0 <= laid.fontSize <= fontSize
      && (!NearlyClosed(curve) ==>
            forall distance, s, c :: Drawn(laid.arc, laid.fontSize, curve, turn, distance, s, c) ==>
              Within(Point(laid.arc, curve, distance, s, c), laid.arc.width, laid.arc.height))
  {
    var radius := RadiusForBox(curve, turn, boxW, boxH, fontSize);
    var run, path := RunWithSeam(text, curve, fontSize, letterSpacing, ratio), PathLength(radius, curve, turn);
    PathLengthPositive(curve, turn, radius);
    ShrinkOnto(run, path);
    var k := Shrink(run, path);
    ShrunkFont(k, fontSize);
    RadiusKept(radius, Scale(k, fontSize), curve, turn);
    hide ArcFromRadius, Shrink, RunWithSeam, PathLength, Scale, SolvedRadius, RadiusForBox, Drawn, Within, Point;
    if !NearlyClosed(curve) {
      var arc := ArcFromRadius(radius, Scale(k, fontSize), curve, turn);
      forall distance, s, c | Drawn(arc, Scale(k, fontSize), curve, turn, distance, s, c)
        ensures Within(Point(arc, curve, distance, s, c), arc.width, arc.height)
      {
        DrawnInside(radius, Scale(k, fontSize), curve, turn, distance, s, c);
      }
    }
  }

  /**
   Curved text stays in its box: when the solved radius is not under the one-pixel floor, the arc's box is
   inside the given one and all that is drawn is inside the arc's box, before and after the font shrinks,
   for arcs up to and past half a circle and with the inner radius clamped or not.
   */
  lemma CurvedTextInBox(text: string, fontSize: real, letterSpacing: real, curve: real, turn: Turn,
                        boxW: real, boxH: real, ratio: real)
    requires TurnFor(curve, turn) && boxW > 0.0 && boxH > 0.0 && fontSize >= 0.0
    ensures turn.cosHalf < 1.0
    ensures var laid := TextArcPath(text, fontSize, letterSpacing, curve, turn, boxW, boxH, ratio);
      SolvedRadius(curve, turn, boxW, boxH, fontSize) >= 1.0 ==>
        && laid.arc.width <= boxW && laid.arc.height <= boxH
        && (!NearlyClosed(curve) ==>
              forall distance, s, c :: Drawn(laid.arc, laid.fontSize, curve, turn, distance, s, c) ==>
                Within(Point(laid.arc, curve, distance, s, c), boxW, boxH))
  {
    hide TextArcPath, SolvedRadius, Drawn, Point;
    SettledRingInBox(text, fontSize, letterSpacing, curve, turn, boxW, boxH, ratio);
    LaidInside(text, fontSize, letterSpacing, curve, turn, boxW, boxH, ratio);
  }

  lemma RadiusKept(radius: real, fontSize: real, curve: real, turn: Turn)
    ensures ArcFromRadius(radius, fontSize, curve, turn).radius == radius
  {
  }

  /** The top of an arch's glyphs touches the top of the box; the bottom of a valley's touches its bottom. */
  lemma ApexTouches(radius: real, fontSize: real, curve: real, turn: Turn)
    requires TurnFor(curve, turn) && radius >= 0.0 && fontSize >= 0.0
    ensures var arc := ArcFromRadius(radius, fontSize, curve, turn);
      var outer := radius + (if curve >= 0.0 then 0.8 else 0.22) * fontSize;
      && Drawn(arc, fontSize, curve, turn, outer, 0.0, 1.0)
      && Point(arc, curve, outer, 0.0, 1.0).1 == if curve >= 0.0 then 0.0 else arc.height
  {
    hide Square, Scale, SectorWidth, SectorHeight;
    UnitSquares(turn.sinHalf);
    UnitCoordinates(turn.sinHalf, turn.cosHalf);
    ScaleSigns(radius + ReachOut(fontSize, curve), 1.0);
  }

  /** The ends of the run touch the opposite edge. */
  lemma EndsTouch(radius: real, fontSize: real, curve: real, turn: Turn)
    requires TurnFor(curve, turn) && radius >= 0.0 && fontSize >= 0.0
    ensures var arc := ArcFromRadius(radius, fontSize, curve, turn);
      var outer := radius + (if curve >= 0.0 then 0.8 else 0.22) * fontSize;
      var inner := Max(0.0, radius - (if curve >= 0.0 then 0.22 else 0.8) * fontSize);
      var last := if AtMostHalf(curve) then inner else outer;
      && Drawn(arc, fontSize, curve, turn, last, turn.sinHalf, turn.cosHalf)
      && Point(arc, curve, last, turn.sinHalf, turn.cosHalf).1 == if curve >= 0.0 then arc.height else 0.0
  {
    hide Square, Scale, SectorWidth;
  }

  /** Both sides are touched: at the ends of a run of at most half a turn, at its widest points otherwise. */
  lemma SidesTouch(radius: real, fontSize: real, curve: real, turn: Turn)
    requires TurnFor(curve, turn) && radius >= 0.0 && fontSize >= 0.0
    ensures var arc := ArcFromRadius(radius, fontSize, curve, turn);
      var outer := radius + (if curve >= 0.0 then 0.8 else 0.22) * fontSize;
      var (s, c) := if AtMostHalf(curve) then (turn.sinHalf, turn.cosHalf) else (1.0, 0.0);
      && Drawn(arc, fontSize, curve, turn, outer, s, c) && Point(arc, curve, outer, s, c).0 == arc.width
      && Drawn(arc, fontSize, curve, turn, outer, -s, c) && Point(arc, curve, outer, -s, c).0 == 0.0
  {
    hide Square, Scale, SectorHeight;
    UnitSquares(turn.sinHalf);
    UnitSquares(1.0);
    ScaleSigns(radius + ReachOut(fontSize, curve), if AtMostHalf(curve) then turn.sinHalf else 1.0);
  }

  lemma UnitSquares(x: real)
    ensures Square(0.0) == 0.0 && Square(1.0) == 1.0 && Square(-1.0) == 1.0 && Square(-x) == Square(x)
  {
  }

  lemma ScaleSigns(k: real, x: real)
    ensures Scale(k, 0.0) == 0.0 && Scale(k, 1.0) == k && Scale(k, -1.0) == -k && Scale(k, -x) == -Scale(k, x)
  {
  }

  /**
   A ring closed before its full turn is drawn all round, but its box is measured over the turn it sweeps:
   the side opposite the middle of the run is drawn outside the box.
   */
  lemma NearlyClosedOvershoots(radius: real, fontSize: real, curve: real, turn: Turn)
    requires TurnFor(curve, turn) && radius > 0.0 && fontSize >= 0.0 && NearlyClosed(curve)
    ensures var arc := ArcFromRadius(radius, fontSize, curve, turn);
      var outer := radius + (if curve >= 0.0 then 0.8 else 0.22) * fontSize;
      && Drawn(arc, fontSize, curve, turn, outer, 0.0, -1.0)
      && !Within(Point(arc, curve, outer, 0.0, -1.0), arc.width, arc.height)
  {
    var outer := radius + ReachOut(fontSize, curve);
    UnitSquares(0.0);
    ScaleSigns(outer, 1.0);
    UnitCoordinates(turn.sinHalf, turn.cosHalf);
    StrictScale(-1.0, turn.cosHalf, outer);
    hide Square;
  }

  function SquaredDistance(dx: real, dy: real): real { Square(dx) + Square(dy) }

  lemma ProductOfProducts(r: real, x: real, s: real, y: real)
    ensures Scale(Scale(r, x), Scale(s, y)) == Scale(Scale(r, s), Scale(x, y))
    ensures Scale(-x, -y) == Scale(x, y) && Scale(0.0, x) == 0.0
  {
    assert (r * x) * (s * y) == (r * s) * (x * y);
  }

  lemma SquareOfProduct(r: real, x: real)
    ensures Square(Scale(r, x)) == Scale(Square(r), Square(x))
    ensures Square(-x) == Square(x) && Square(0.0) == 0.0
  {
    ProductOfProducts(r, x, r, x);
    ProductOfProducts(r, 0.0, r, 0.0);
    hide Scale;
  }

  lemma OnCircle(r: real, s: real, c: real)
    requires Square(s) + Square(c) == 1.0
    ensures Square(Scale(r, s)) + Square(Scale(r, c)) == Square(r)
  {
    SquareOfProduct(r, s);
    SquareOfProduct(r, c);
    ScaleLinear(Square(r), Square(s), Square(c));
    assert Scale(Square(r), 1.0) == Square(r);
    hide Square, Scale;
  }

  /** The end of the path on one side: the end of the swept angle, or the far side of a closed ring. */
  function PathEnd(arc: Arc, turn: Turn): (real, real) {
    if arc.fullCircle then (0.0, -1.0) else (turn.sinHalf, turn.cosHalf)
  }

  /** The path's ends are drawn, and are where its end points say. */
  lemma PathEndsDrawn(radius: real, fontSize: real, curve: real, turn: Turn)
    requires TurnFor(curve, turn)
    ensures var arc := ArcFromRadius(radius, fontSize, curve, turn);
      var (s, c) := PathEnd(arc, turn);
      && (arc.startX, arc.startY) == Point(arc, curve, radius, -s, c)
      && (arc.endX, arc.endY) == Point(arc, curve, radius, s, c)
      && (radius >= 0.0 && fontSize >= 0.0 ==>
            Drawn(arc, fontSize, curve, turn, radius, -s, c) && Drawn(arc, fontSize, curve, turn, radius, s, c))
  {
    hide Square, Scale, SectorHeight, SectorWidth;
    UnitSquares(turn.sinHalf);
    UnitSquares(0.0);
    ScaleSigns(radius, turn.sinHalf);
  }

  /** A point of the ring is at the ring's distance from its centre. */
  lemma PointOnRing(arc: Arc, curve: real, s: real, c: real)
    requires Square(s) + Square(c) == 1.0
    ensures var (x, y) := Point(arc, curve, arc.radius, s, c);
      SquaredDistance(x - arc.cx, y - arc.cy) == Square(arc.radius)
  {
    hide Square, Scale;
    OnCircle(arc.radius, s, c);
    SquareOfProduct(1.0, Scale(arc.radius, c));
    var (x, y) := Point(arc, curve, arc.radius, s, c);
    assert x - arc.cx == Scale(arc.radius, s);
    assert y - arc.cy == if curve >= 0.0 then -Scale(arc.radius, c) else Scale(arc.radius, c);
  }

  /**
   The path runs from left to right between the ends of the swept angle, or from the far side of a closed
   ring back to it, on the ring; an arch's ends lie below its apex and a valley's above its lowest point.
   */
  lemma PathEndsOnRing(radius: real, fontSize: real, curve: real, turn: Turn)
    requires TurnFor(curve, turn)
    ensures var arc := ArcFromRadius(radius, fontSize, curve, turn);
      var (s, c) := PathEnd(arc, turn);
      && arc.radius == radius && arc.up == (curve >= 0.0) && arc.fullCircle == (curve >= 99.9 || curve <= -99.9)
      && (arc.large <==> curve > 50.0 || curve < -50.0)
      && (arc.startX, arc.startY) == Point(arc, curve, radius, -s, c)
      && (arc.endX, arc.endY) == Point(arc, curve, radius, s, c)
      && SquaredDistance(arc.startX - arc.cx, arc.startY - arc.cy) == Square(radius)
      && arc.endY == arc.startY && arc.endX - arc.cx == arc.cx - arc.startX
      && (radius >= 0.0 ==>
            && arc.startX <= arc.endX
            && (if arc.up then arc.startY >= arc.cy - radius else arc.startY <= arc.cy + radius)
            && (fontSize >= 0.0 ==>
                  Drawn(arc, fontSize, curve, turn, radius, -s, c) && Drawn(arc, fontSize, curve, turn, radius, s, c)))
  {
    hide Square, Scale, SectorHeight, SectorWidth, Drawn, SquaredDistance;
    var arc := ArcFromRadius(radius, fontSize, curve, turn);
    var (s, c) := PathEnd(arc, turn);
    PathEndsDrawn(radius, fontSize, curve, turn);
    UnitSquares(turn.sinHalf);
    UnitSquares(0.0);
    UnitCoordinates(turn.sinHalf, turn.cosHalf);
    PointOnRing(arc, curve, -s, c);
    ScaleSigns(radius, s);
    if radius >= 0.0 {
      ScaleMonoRight(radius, c, 1.0);
      ScaleMonoRight(radius, 0.0, s);
    }
  }
}
