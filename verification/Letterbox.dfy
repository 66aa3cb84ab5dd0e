/** The largest centred box of the authored aspect inside a target canvas. */
module Letterboxes {
  import opened Common

  datatype Canvas = Canvas(width: real, height: real)

  datatype Letterbox = Letterbox(x: real, y: real, width: real, height: real)

  const ASPECT_TOLERANCE: real := 0.000000001

  /** The authoring canvas, when it was recorded with positive sides. */
  predicate Usable(authoring: Option<Canvas>) {
    authoring.Some? && authoring.value.width > 0.0 && authoring.value.height > 0.0
  }

  /** The aspects are treated as equal. */
  predicate SameAspect(c: Canvas, targetW: real, targetH: real)
    requires c.height != 0.0 && targetH != 0.0
  {
    Abs(c.width / c.height - targetW / targetH) < ASPECT_TOLERANCE
  }

  function LetterboxFor(authoring: Option<Canvas>, targetW: real, targetH: real): Letterbox {
    var full := Letterbox(0.0, 0.0, targetW, targetH);
    if !(targetW > 0.0 && targetH > 0.0) || !Usable(authoring) then full
    else if SameAspect(authoring.value, targetW, targetH) then full
    else
      var aspect := authoring.value.width / authoring.value.height;
      PositiveQuotient(authoring.value.width, authoring.value.height);
      if aspect > targetW / targetH then
        var height := targetW / aspect;
        Letterbox(0.0, (targetH - height) / 2.0, targetW, height)
      else
        var width := Scale(aspect, targetH);
        Letterbox((targetW - width) / 2.0, 0.0, width, targetH)
  }

  lemma PositiveQuotient(x: real, y: real)
    requires x > 0.0 && y > 0.0
    ensures x / y > 0.0
  {
    assert (x / y) * y == x;
    PositiveFactor(y, x / y);
  }

  /** A box of width `w` and height `h` has the aspect `a`. */
  predicate HasAspect(w: real, h: real, a: real) { w == Scale(a, h) }

  lemma AspectOrder(a: real, w: real, h: real, w': real, h': real)
    requires a > 0.0 && HasAspect(w, h, a) && HasAspect(w', h', a)
    ensures w <= w' <==> h <= h'
  {
    ScaleOrder(a, h, h');
    hide Scale;
  }

  lemma AspectCompare(a: real, targetW: real, targetH: real)
    requires a > 0.0 && targetW > 0.0 && targetH > 0.0
    ensures a > targetW / targetH <==> Scale(a, targetH) > targetW
    ensures HasAspect(targetW, targetW / a, a)
  {
    var t := targetW / targetH;
    assert t * targetH == targetW;
    if a > t { PositiveProduct(a - t, targetH); } else { MulMono(a, t, targetH); }
    assert a * (targetW / a) == targetW;
  }

  /**
   Outside the tolerance the letterbox is inside the target, centred, of the authored
   aspect, and no box of that aspect inside the target is larger.
   */
  lemma LetterboxIsLargest(c: Canvas, targetW: real, targetH: real, w: real, h: real)
    requires c.width > 0.0 && c.height > 0.0 && targetW > 0.0 && targetH > 0.0
    requires !SameAspect(c, targetW, targetH)
    ensures var box := LetterboxFor(Some(c), targetW, targetH);
      && 0.0 <= box.x && box.x + box.width <= targetW && 0.0 <= box.y && box.y + box.height <= targetH
      && box.x + box.width / 2.0 == targetW / 2.0 && box.y + box.height / 2.0 == targetH / 2.0
      && HasAspect(box.width, box.height, c.width / c.height)
      && (HasAspect(w, h, c.width / c.height) && w <= targetW && h <= targetH ==> w <= box.width && h <= box.height)
  {
    var a := c.width / c.height;
    PositiveQuotient(c.width, c.height);
    AspectCompare(a, targetW, targetH);
    var box := LetterboxFor(Some(c), targetW, targetH);
    assert a > targetW / targetH ==> HasAspect(box.width, box.height, a);
    AspectOrder(a, box.width, box.height, targetW, targetW / a);
    if HasAspect(w, h, a) { AspectOrder(a, w, h, box.width, box.height); }
    ScaleOrder(a, targetH, targetW / a);
    hide Scale;
  }

  /**
   The whole target is filled exactly when there is nothing to keep: a canvas or target that has no positive
   sides, or aspects that differ by less than 1e-9.
   */
  lemma FillsExactly(authoring: Option<Canvas>, targetW: real, targetH: real)
    ensures LetterboxFor(authoring, targetW, targetH) == Letterbox(0.0, 0.0, targetW, targetH) <==>
      || targetW <= 0.0 || targetH <= 0.0
      || authoring.None? || authoring.value.width <= 0.0 || authoring.value.height <= 0.0
      || -0.000000001 < authoring.value.width / authoring.value.height - targetW / targetH < 0.000000001
  {
    if targetW > 0.0 && targetH > 0.0 && Usable(authoring) {
      var a := authoring.value.width / authoring.value.height;
      PositiveQuotient(authoring.value.width, authoring.value.height);
      AspectCompare(a, targetW, targetH);
      AspectOfTarget(a, targetW, targetH);
      hide Scale;
    }
  }

  /** Only a target of the same aspect is filled by a box of that aspect. */
  lemma AspectOfTarget(a: real, targetW: real, targetH: real)
    requires a > 0.0 && targetW > 0.0 && targetH > 0.0
    ensures targetW / a == targetH || Scale(a, targetH) == targetW ==> a == targetW / targetH
  {
    assert (targetW / a) * a == targetW;
    if a * targetH == targetW { assert (a * targetH) / targetH == a; }
  }

  function ScaledLetterbox(k: real, b: Letterbox): Letterbox {
    Letterbox(Scale(k, b.x), Scale(k, b.y), Scale(k, b.width), Scale(k, b.height))
  }

  /** The letterbox of a scaled target is the scaled letterbox, the tolerance branch included. */
  lemma LetterboxScales(k: real, authoring: Option<Canvas>, targetW: real, targetH: real)
    requires k > 0.0
    ensures LetterboxFor(authoring, Scale(k, targetW), Scale(k, targetH))
         == ScaledLetterbox(k, LetterboxFor(authoring, targetW, targetH))
  {
    ScaleOrder(k, targetW, 0.0);
    ScaleOrder(k, targetH, 0.0);
    if targetW > 0.0 && targetH > 0.0 && Usable(authoring) {
      var aspect := authoring.value.width / authoring.value.height;
      PositiveQuotient(authoring.value.width, authoring.value.height);
      ScaleRatio(k, targetW, targetH);
      ScaleRatio(k, targetW, aspect);
      ScaleCompose(k, aspect, targetH);
      var height, width := targetW / aspect, Scale(aspect, targetH);
      ScaleLinear(k, targetH, height);
      ScaleLinear(k, targetW, width);
      ScaleLinear(k, targetH - height, 0.0);
      ScaleLinear(k, targetW - width, 0.0);
      hide Scale;
    }
  }
}
