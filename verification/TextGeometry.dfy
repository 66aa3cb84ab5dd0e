/**
 Flat-text geometry: measuring, wrapping, shrink-to-fit and vertical placement.

 Text is a sequence of code points, numbers are reals. An absent `advanceRatio`
 is zero, which the source treats alike.
 */
module TextGeometry {
  import opened Common

  const LINE_HEIGHT: real := 1.25
  const CHAR_ADVANCE: real := 0.62
  const MIN_FONT_RATIO: real := 1.0 / 25.0
  const FIT_ITERATIONS: nat := 24

  // ---------------------------------------------------------------- measuring

  function Advance(ratio: real): (a: real)
    ensures a > 0.0
  {
    if ratio > 0.0 then ratio else CHAR_ADVANCE
  }

  /** Estimated length of a run of `n` code points; an empty run counts as one blank. */
  function RunLength(n: nat, fontSize: real, letterSpacing: real, ratio: real): real {
    var glyphs := if n == 0 then 1 else n;
    glyphs as real * fontSize * Advance(ratio) + (glyphs - 1) as real * letterSpacing
  }

  function EstimateTextLength(text: string, fontSize: real, letterSpacing: real, ratio: real): real {
    RunLength(|text|, fontSize, letterSpacing, ratio)
  }

  /** A font's measured advance is used when it has one, and 0.62 of its size otherwise. */
  lemma MeasuredLength(text: string, fontSize: real, letterSpacing: real, ratio: real)
    ensures var n, glyph := |text| as real, if ratio > 0.0 then ratio else 0.62;
      EstimateTextLength(text, fontSize, letterSpacing, ratio)
      == if text == "" then fontSize * glyph else n * fontSize * glyph + (n - 1.0) * letterSpacing
  {
    if |text| == 0 { assert 1.0 * fontSize == fontSize; }
  }

  /** How text is measured against a box of some width. */
  datatype Measure = Measure(fontSize: real, letterSpacing: real, maxWidth: real, ratio: real) {
    function Limit(): real { Max(1.0, maxWidth) }

    /** A run of `n` code points is over the limit. */
    predicate Over(n: nat) { RunLength(n, fontSize, letterSpacing, ratio) > Limit() }

    /** Each code point after the first adds this much. */
    function Slope(): real { fontSize * Advance(ratio) + letterSpacing }
  }

  // ---------------------------------------------------------------- wrapping

  /** How many code points the greedy loop puts on a full line of a segment of `n`. */
  function Capacity(m: Measure, n: nat): (k: nat)
    requires n >= 1
    ensures 1 <= k <= n
    ensures forall j :: 2 <= j <= k ==> !m.Over(j)
    ensures k < n ==> m.Over(k + 1)
  {
    CapacityFrom(m, n, 1)
  }

  function CapacityFrom(m: Measure, n: nat, from: nat): (k: nat)
    requires 1 <= from <= n
    requires forall j :: 2 <= j <= from ==> !m.Over(j)
    ensures from <= k <= n
    ensures forall j :: 2 <= j <= k ==> !m.Over(j)
    ensures k < n ==> m.Over(k + 1)
    decreases n - from
  {
    if from == n || m.Over(from + 1) then from else CapacityFrom(m, n, from + 1)
  }

  /** `s` cut into pieces of `k`, the last one shorter. */
  function Chunks(s: string, k: nat): (lines: seq<string>)
    requires k >= 1
    ensures |lines| >= 1
    decreases |s|
  {
    if |s| <= k then [s] else [s[..k]] + Chunks(s[k..], k)
  }

  function CeilDiv(n: nat, k: nat): nat
    requires k >= 1
  {
    (n + k - 1) / k
  }

  /** The lines of one newline-free segment. */
  function SegmentLines(m: Measure, segment: string): (lines: seq<string>)
    ensures |lines| >= 1
  {
    if segment == "" then [""] else Chunks(segment, Capacity(m, |segment|))
  }

  function Concat(lines: seq<string>): string {
    if lines == [] then "" else lines[0] + Concat(lines[1..])
  }

  /** `split('\n')`. */
  function SplitLines(text: string): (segments: seq<string>)
    ensures |segments| >= 1
  {
    if text == "" then [""]
    else if text[0] == '\n' then [""] + SplitLines(text[1..])
    else
      var rest := SplitLines(text[1..]);
      [[text[0]] + rest[0]] + rest[1..]
  }

  function WrapAll(m: Measure, segments: seq<string>): seq<string> {
    if segments == [] then []
    else WrapAll(m, segments[..|segments| - 1]) + SegmentLines(m, segments[|segments| - 1])
  }

  /** What `wrapTextLines` returns. */
  function Wrapped(m: Measure, text: string): (lines: seq<string>)
    ensures |lines| >= 1
  {
    WrapAll(m, SplitLines(text))
  }

  lemma {:induction false} ChunksConcat(s: string, k: nat)
    requires k >= 1
    ensures Concat(Chunks(s, k)) == s
    decreases |s|
  {
    if |s| <= k {
      assert Concat([s]) == s + Concat([]);
    } else {
      ChunksConcat(s[k..], k);
      assert Chunks(s, k)[1..] == Chunks(s[k..], k);
    }
  }

  lemma DivMod(a: int, k: int, q: int, r: int)
    requires k > 0 && 0 <= r < k && a == q * k + r
    ensures a / k == q && a % k == r
  {
    var d := a / k - q;
    assert d * k == r - a % k;
    assert d >= 1 ==> d * k >= k;
    assert d <= -1 ==> d * k <= -k;
  }

  lemma CeilDivStep(n: nat, k: nat)
    requires n > k >= 1
    ensures CeilDiv(n, k) == CeilDiv(n - k, k) + 1
  {
    var q, r := (n - 1) / k, (n - 1) % k;
    assert n - 1 == q * k + r;
    DivMod(n + k - 1, k, q + 1, r);
    DivMod(n - k + k - 1, k, q, r);
  }

  lemma {:induction false} ChunksCount(s: string, k: nat)
    requires k >= 1 && |s| >= 1
    ensures |Chunks(s, k)| == CeilDiv(|s|, k)
    ensures forall line :: line in Chunks(s, k) ==> 1 <= |line| <= k
    decreases |s|
  {
    if |s| <= k {
      DivMod(|s| + k - 1, k, 1, |s| - 1);
    } else {
      ChunksCount(s[k..], k);
      CeilDivStep(|s|, k);
    }
  }

  lemma {:induction false} ConcatAppend(lines: seq<string>, line: string)
    ensures Concat(lines + [line]) == Concat(lines) + line
  {
    if lines == [] {
      assert Concat([line]) == line + Concat([]);
    } else {
      ConcatAppend(lines[1..], line);
      assert (lines + [line])[1..] == lines[1..] + [line];
    }
  }

  lemma ChunksShort(line: string, k: nat)
    requires k >= 1 && |line| <= k
    ensures Chunks(line, k) == [line]
  {
  }

  lemma ChunksHead(first: string, rest: string, k: nat)
    requires k >= 1 && |first| == k && |rest| >= 1
    ensures Chunks(first + rest, k) == [first] + Chunks(rest, k)
  {
    assert (first + rest)[..k] == first && (first + rest)[k..] == rest;
  }

  /** Full lines followed by a line that is not over-full are the chunks of their text. */
  lemma {:induction false} FullLinesAreChunks(lines: seq<string>, line: string, k: nat)
    requires k >= 1 && 1 <= |line| <= k
    requires forall l :: l in lines ==> |l| == k
    ensures Chunks(Concat(lines) + line, k) == lines + [line]
    decreases |lines|
  {
    hide Chunks;
    if lines == [] {
      ChunksShort(line, k);
      assert Concat(lines) + line == line;
    } else {
      var rest := Concat(lines[1..]) + line;
      FullLinesAreChunks(lines[1..], line, k);
      ChunksHead(lines[0], rest, k);
      assert Concat(lines) + line == lines[0] + rest;
      assert lines + [line] == [lines[0]] + (lines[1..] + [line]);
    }
  }

  /** The inner wrap loop: `line` grows until the next code point would overrun the limit. */
  method WrapSegment(segment: string, m: Measure) returns (lines: seq<string>)
    requires segment != ""
    ensures lines == SegmentLines(m, segment)
  {
    lines := [];
    ghost var k := Capacity(m, |segment|);
    var line := "";
    for i := 0 to |segment|
      invariant Concat(lines) + line == segment[..i]
      invariant forall l :: l in lines ==> |l| == k
      invariant |line| <= k && (line == "" <==> i == 0)
    {
      var ch := segment[i];
      assert segment[..i + 1] == segment[..i] + [ch];
      if line != "" && EstimateTextLength(line + [ch], m.fontSize, m.letterSpacing, m.ratio) > m.Limit() {
        assert m.Over(|line| + 1);
        ConcatAppend(lines, line);
        lines := lines + [line];
        line := [ch];
      } else {
        assert line != "" ==> !m.Over(|line| + 1);
        line := line + [ch];
      }
    }
    assert segment[..|segment|] == segment;
    FullLinesAreChunks(lines, line, k);
    lines := lines + [line];
  }

  /** The outer wrap loop over the newline-separated segments. */
  method WrapTextLines(text: string, fontSize: real, letterSpacing: real, maxWidth: real, ratio: real)
    returns (out: seq<string>)
    ensures out == Wrapped(Measure(fontSize, letterSpacing, maxWidth, ratio), text)
  {
    hide Capacity, Chunks, SplitLines;
    var m := Measure(fontSize, letterSpacing, maxWidth, ratio);
    out := [];
    var segments := SplitLines(text);
    for s := 0 to |segments|
      invariant out == WrapAll(m, segments[..s])
    {
      assert segments[..s + 1][..s] == segments[..s];
      if segments[s] == "" {
        out := out + [""];
      } else {
        var lines := WrapSegment(segments[s], m);
        out := out + lines;
      }
    }
    assert segments[..|segments|] == segments;
  }

  /** Newlines joined back between the segments give the text again. */
  function JoinLines(segments: seq<string>): string
    requires segments != []
  {
    if |segments| == 1 then segments[0] else segments[0] + "\n" + JoinLines(segments[1..])
  }

  lemma {:induction false} SplitLinesLosesNothing(text: string)
    ensures JoinLines(SplitLines(text)) == text
    ensures forall s :: s in SplitLines(text) ==> '\n' !in s
  {
    if text != "" {
      SplitLinesLosesNothing(text[1..]);
      var rest := SplitLines(text[1..]);
      if text[0] == '\n' {
        assert SplitLines(text)[1..] == rest;
      } else {
        var all := SplitLines(text);
        assert all[0] == [text[0]] + rest[0] && all[1..] == rest[1..];
      }
    }
  }

  /**
   Wrapping a segment loses nothing, keeps every line of two or more code points within
   the limit, and uses ceil(n / K) lines.
   */
  lemma SegmentLinesSound(m: Measure, segment: string)
    ensures Concat(SegmentLines(m, segment)) == segment
    ensures forall line :: line in SegmentLines(m, segment) && |line| >= 2 ==> !m.Over(|line|)
    ensures segment != "" ==>
      |SegmentLines(m, segment)| == CeilDiv(|segment|, Capacity(m, |segment|))
  {
    if segment == "" {
      assert Concat([""]) == "" + Concat([]);
    } else {
      var k := Capacity(m, |segment|);
      ChunksConcat(segment, k);
      ChunksCount(segment, k);
    }
  }

  lemma {:induction false} EveryLineSound(m: Measure, segments: seq<string>)
    ensures forall line :: line in WrapAll(m, segments) && |line| >= 2 ==> !m.Over(|line|)
  {
    if segments != [] {
      EveryLineSound(m, segments[..|segments| - 1]);
      SegmentLinesSound(m, segments[|segments| - 1]);
    }
  }

  // ---------------------------------------------------------------- minimality

  /** A line the wrapper may emit: a lone code point is drawn however wide it is. */
  predicate Fitting(m: Measure, line: string) { |line| <= 1 || !m.Over(|line|) }

  /** Adding code points never shortens a run. */
  lemma OverIsUpward(m: Measure, i: nat, j: nat)
    requires m.Slope() >= 0.0 && 1 <= i <= j && m.Over(i)
    ensures m.Over(j)
  {
    RunLengthLinear(m, i);
    RunLengthLinear(m, j);
    assert (j - i) as real * m.Slope() >= 0.0;
  }

  lemma RunLengthLinear(m: Measure, n: nat)
    requires n >= 1
    ensures RunLength(n, m.fontSize, m.letterSpacing, m.ratio) == n as real * m.Slope() - m.letterSpacing
  {
  }

  lemma OneMoreLine(lines: int, k: int)
    ensures lines * k == k + (lines - 1) * k
  {
  }

  lemma {:induction false} CapacityCovers(pieces: seq<string>, k: nat)
    requires k >= 1
    requires forall p :: p in pieces ==> |p| <= k
    ensures |Concat(pieces)| <= |pieces| * k
  {
    if pieces != [] {
      CapacityCovers(pieces[1..], k);
      OneMoreLine(|pieces|, k);
    }
  }

  /** No split of the segment into fitting lines has fewer lines than the greedy one. */
  ghost predicate GreedyMinimal(m: Measure, segment: string) {
    forall pieces :: Concat(pieces) == segment && (forall p :: p in pieces ==> Fitting(m, p))
      ==> |SegmentLines(m, segment)| <= |pieces|
  }

  lemma GreedyMinimalOnSlope(m: Measure, segment: string)
    requires m.Slope() >= 0.0 && segment != ""
    ensures GreedyMinimal(m, segment)
  {
    var n, k := |segment|, Capacity(m, |segment|);
    SegmentLinesSound(m, segment);
    forall pieces | Concat(pieces) == segment && (forall p :: p in pieces ==> Fitting(m, p))
      ensures |SegmentLines(m, segment)| <= |pieces|
    {
      if k < n {
        forall p | p in pieces ensures |p| <= k {
          if m.Over(k + 1) && |p| > k { OverIsUpward(m, k + 1, |p|); }
        }
        CapacityCovers(pieces, k);
        CeilDivLeast(n, k, |pieces|);
      } else {
        DivMod(n + k - 1, k, 1, n - 1);
        assert pieces != [];
      }
    }
  }

  lemma OneLineIsMinimal(m: Measure, segment: string)
    requires m.Slope() < 0.0 && !m.Over(2) && segment != ""
    ensures GreedyMinimal(m, segment)
  {
    RunLengthLinear(m, 2);
    forall n: nat | n >= 2 ensures !m.Over(n) {
      RunLengthLinear(m, n);
      assert (n - 2) as real * m.Slope() <= 0.0;
    }
    assert Capacity(m, |segment|) == |segment|;
  }

  /** A shrinking run: two code points overrun the limit, enough of them do not. */
  lemma LongRunFits(m: Measure) returns (n: nat)
    requires m.Slope() < 0.0 && m.Over(2)
    ensures n > 2 && !m.Over(n)
  {
    var need := (Abs(m.letterSpacing) + 1.0) / -m.Slope();
    n := need.Floor + 3;
    RunLengthLinear(m, n);
    assert n as real >= need;
    assert need * -m.Slope() == Abs(m.letterSpacing) + 1.0;
    assert n as real * -m.Slope() >= need * -m.Slope();
  }

  /** The greedy wrap is minimal for every segment exactly under this guard. */
  lemma GreedyMinimalExactly(m: Measure)
    ensures (forall segment | segment != "" :: GreedyMinimal(m, segment)) <==> m.Slope() >= 0.0 || !m.Over(2)
  {
    if m.Slope() >= 0.0 || !m.Over(2) {
      forall segment | segment != "" ensures GreedyMinimal(m, segment) {
        if m.Slope() >= 0.0 { GreedyMinimalOnSlope(m, segment); } else { OneLineIsMinimal(m, segment); }
      }
    } else {
      var n := LongRunFits(m);
      var segment := seq(n, _ => 'i');
      SegmentLinesSound(m, segment);
      assert Capacity(m, n) == 1;
      DivMod(n, 1, n, 0);
      assert Concat([segment]) == segment + Concat([]);
      assert !GreedyMinimal(m, segment) by {
        assert Concat([segment]) == segment && forall p :: p in [segment] ==> Fitting(m, p);
      }
    }
  }

  lemma CeilDivLeast(n: nat, k: nat, c: nat)
    requires k >= 1 && n <= c * k
    ensures CeilDiv(n, k) <= c
  {
    var q, r := (n + k - 1) / k, (n + k - 1) % k;
    assert n + k - 1 == q * k + r;
    assert q >= c + 1 ==> q * k >= (c + 1) * k;
  }

  // ---------------------------------------------------------------- shrink to fit

  /** Text to be fitted into a box of fixed height. */
  datatype Request = Request(
    text: string, maxFontSize: real, letterSpacing: real, boxW: real, boxH: real, ratio: real)
  {
    /** The box constrains the text at all. */
    predicate Bounded() { boxH > 0.0 && boxW > 0.0 && maxFontSize > 0.0 }

    /** Letter spacing shrinks with the font. */
    function SpacingAt(fontSize: real): real
      requires maxFontSize != 0.0
    {
      letterSpacing * (fontSize / maxFontSize)
    }

    function At(fontSize: real): Measure
      requires maxFontSize != 0.0
    {
      Measure(fontSize, SpacingAt(fontSize), boxW, ratio)
    }

    predicate Fits(fontSize: real)
      requires maxFontSize != 0.0
    {
      BlockHeight(At(fontSize), text) <= boxH
    }

    function Floor(minFontRatio: real): real {
      Min(maxFontSize * minFontRatio, maxFontSize)
    }
  }

  datatype Sized = Sized(fontSize: real, letterSpacing: real)

  /** `steps` halvings of the interval between a size that fits and one that does not. */
  function Bisected(q: Request, lo: real, hi: real, steps: nat): real
    requires q.maxFontSize != 0.0
    decreases steps
  {
    if steps == 0 then lo
    else if q.Fits((lo + hi) / 2.0) then Bisected(q, (lo + hi) / 2.0, hi, steps - 1)
    else Bisected(q, lo, (lo + hi) / 2.0, steps - 1)
  }

  /** What `fitTextToBox` returns. */
  function Fitted(q: Request, minFontRatio: real): Sized {
    if !q.Bounded() || q.Fits(q.maxFontSize) then Sized(q.maxFontSize, q.letterSpacing)
    else
      var floor := q.Floor(minFontRatio);
      var size := if !q.Fits(floor) then floor else Bisected(q, floor, q.maxFontSize, FIT_ITERATIONS);
      Sized(size, q.SpacingAt(size))
  }

  /** The block's height is that of its lines at 1.25 of the size, its spacing reduced in proportion. */
  lemma FitsAsMeasured(q: Request, fontSize: real)
    requires q.maxFontSize != 0.0
    ensures var m := Measure(fontSize, q.letterSpacing * (fontSize / q.maxFontSize), q.boxW, q.ratio);
      && m == q.At(fontSize) && m.letterSpacing == q.SpacingAt(fontSize)
      && (q.Fits(fontSize) <==> LinesHeight(|Wrapped(m, q.text)|, fontSize) <= q.boxH)
  {
    hide Wrapped;
  }

  lemma HeightOf(lines: nat, fontSize: real)
    ensures LinesHeight(lines, fontSize) == lines as real * fontSize * 1.25
  {
  }

  method FitsBox(q: Request, fontSize: real) returns (fits: bool)
    requires q.maxFontSize != 0.0
    ensures fits == q.Fits(fontSize)
    ensures var m := Measure(fontSize, q.letterSpacing * (fontSize / q.maxFontSize), q.boxW, q.ratio);
      fits <==> LinesHeight(|Wrapped(m, q.text)|, fontSize) <= q.boxH
  {
    hide Wrapped, Request.Fits, Request.At, Request.SpacingAt, LinesHeight;
    FitsAsMeasured(q, fontSize);
    var lines := WrapTextLines(q.text, fontSize, q.SpacingAt(fontSize), q.boxW, q.ratio);
    HeightOf(|lines|, fontSize);
    fits := |lines| as real * fontSize * LINE_HEIGHT <= q.boxH;
  }

  method FitTextToBox(q: Request, minFontRatio: real) returns (sized: Sized)
    ensures sized == Fitted(q, minFontRatio)
    ensures q.boxH <= 0.0 || q.boxW <= 0.0 || q.maxFontSize <= 0.0 ==> sized == Sized(q.maxFontSize, q.letterSpacing)
  {
    if !q.Bounded() {
      return Sized(q.maxFontSize, q.letterSpacing);
    }
    var fits := FitsBox(q, q.maxFontSize);
    if fits {
      return Sized(q.maxFontSize, q.letterSpacing);
    }
    var lo := q.Floor(minFontRatio);
    fits := FitsBox(q, lo);
    if !fits {
      return Sized(lo, q.SpacingAt(lo));
    }
    var hi := q.maxFontSize;
    ghost var answer := Bisected(q, lo, hi, FIT_ITERATIONS);
    for i := 0 to FIT_ITERATIONS
      invariant Bisected(q, lo, hi, FIT_ITERATIONS - i) == answer
    {
      var mid := (lo + hi) / 2.0;
      fits := FitsBox(q, mid);
      if fits { lo := mid; } else { hi := mid; }
    }
    return Sized(lo, q.SpacingAt(lo));
  }

  // Monotonicity of the wrap in the font size.

  lemma OverGrows(q: Request, a: real, b: real, n: nat)
    requires q.maxFontSize > 0.0 && 0.0 < a <= b && n >= 1 && q.At(a).Over(n)
    ensures q.At(b).Over(n)
  {
    var perSize := n as real * Advance(q.ratio) + (n - 1) as real * (q.letterSpacing / q.maxFontSize);
    RunLengthScales(q, a, n);
    RunLengthScales(q, b, n);
    PositiveFactor(a, perSize);
    MulMono(a, b, perSize);
  }

  /** A run's length is proportional to the font size, spacing included. */
  lemma RunLengthScales(q: Request, size: real, n: nat)
    requires q.maxFontSize > 0.0 && n >= 1
    ensures RunLength(n, size, q.SpacingAt(size), q.ratio)
         == size * (n as real * Advance(q.ratio) + (n - 1) as real * (q.letterSpacing / q.maxFontSize))
  {
    var per := q.letterSpacing / q.maxFontSize;
    assert q.SpacingAt(size) == size * per;
    assert (n - 1) as real * (size * per) == size * ((n - 1) as real * per);
    assert n as real * size * Advance(q.ratio) == size * (n as real * Advance(q.ratio));
  }

  lemma CeilDivCovers(n: nat, k: nat)
    requires k >= 1
    ensures n <= CeilDiv(n, k) * k
  {
    var q, r := (n + k - 1) / k, (n + k - 1) % k;
    assert n + k - 1 == q * k + r;
  }

  /** Every run the first measure cannot take is too long for the second as well. */
  ghost predicate Tighter(m: Measure, m': Measure) {
    forall n: nat :: n >= 1 && m.Over(n) ==> m'.Over(n)
  }

  lemma SegmentCountGrows(m: Measure, m': Measure, segment: string)
    requires Tighter(m, m')
    ensures |SegmentLines(m, segment)| <= |SegmentLines(m', segment)|
  {
    if segment != "" {
      var n := |segment|;
      var k, k' := Capacity(m, n), Capacity(m', n);
      assert k < n ==> m'.Over(k + 1);
      assert k' <= k;
      SegmentLinesSound(m, segment);
      SegmentLinesSound(m', segment);
      CeilDivAntitone(n, k', k);
    }
  }

  lemma CeilDivAntitone(n: nat, k': nat, k: nat)
    requires 1 <= k' <= k
    ensures CeilDiv(n, k) <= CeilDiv(n, k')
  {
    CeilDivCovers(n, k');
    var c := CeilDiv(n, k');
    assert c * k' <= c * k;
    CeilDivLeast(n, k, c);
  }

  lemma {:induction false} WrapCountGrows(m: Measure, m': Measure, segments: seq<string>)
    requires Tighter(m, m')
    ensures |WrapAll(m, segments)| <= |WrapAll(m', segments)|
  {
    if segments != [] {
      WrapCountGrows(m, m', segments[..|segments| - 1]);
      SegmentCountGrows(m, m', segments[|segments| - 1]);
    }
  }

  /** A larger font is a tighter measure. */
  lemma LargerIsTighter(q: Request, a: real, b: real)
    requires q.maxFontSize > 0.0 && 0.0 < a <= b
    ensures Tighter(q.At(a), q.At(b))
  {
    forall n: nat | n >= 1 && q.At(a).Over(n) ensures q.At(b).Over(n) { OverGrows(q, a, b, n); }
  }

  function LinesHeight(lines: nat, fontSize: real): real { lines as real * fontSize * LINE_HEIGHT }

  function BlockHeight(m: Measure, text: string): real {
    LinesHeight(|Wrapped(m, text)|, m.fontSize)
  }

  lemma BlockHeightGrows(m: Measure, m': Measure, text: string)
    requires |Wrapped(m, text)| <= |Wrapped(m', text)| && 0.0 < m.fontSize <= m'.fontSize
    ensures BlockHeight(m, text) <= BlockHeight(m', text)
  {
    hide Wrapped;
    BlockOrder(|Wrapped(m, text)| as real, |Wrapped(m', text)| as real, m.fontSize, m'.fontSize);
  }

  lemma OverflowPositive(q: Request, a: real)
    requires q.Bounded() && !q.Fits(a)
    ensures a > 0.0
  {
    BlockSign(|Wrapped(q.At(a), q.text)| as real, a);
  }

  /** So a size that overflows the box is overflowed by every larger one. */
  lemma OverflowGrows(q: Request, a: real, b: real)
    requires q.Bounded() && !q.Fits(a) && a <= b
    ensures !q.Fits(b)
  {
    OverflowPositive(q, a);
    LargerIsTighter(q, a, b);
    WrapCountGrows(q.At(a), q.At(b), SplitLines(q.text));
    BlockHeightGrows(q.At(a), q.At(b), q.text);
  }

  lemma BlockSign(m: real, size: real)
    requires m >= 0.0
    ensures size <= 0.0 ==> m * size * LINE_HEIGHT <= 0.0
  {
    if size <= 0.0 { MulMono(size, 0.0, m); }
  }

  lemma BlockOrder(m: real, n: real, a: real, b: real)
    requires 0.0 <= m <= n && 0.0 < a <= b
    ensures m * a * LINE_HEIGHT <= n * b * LINE_HEIGHT
  {
    MulMono(m, n, a);
    MulMono(a, b, n);
  }

  function Pow2(n: nat): (p: real)
    ensures p >= 1.0
  {
    if n == 0 then 1.0 else 2.0 * Pow2(n - 1)
  }

  lemma HalfQuotient(x: real, p: real)
    requires p > 0.0
    ensures x / 2.0 / p == x / (2.0 * p)
  {
    var u := x / 2.0 / p;
    assert u * (2.0 * p) == x;
  }

  /** The bisection keeps a fitting size below a non-fitting one, halving the gap each step. */
  lemma {:induction false} BisectionBrackets(q: Request, lo: real, hi: real, steps: nat)
    requires q.maxFontSize > 0.0 && lo <= hi && q.Fits(lo) && !q.Fits(hi)
    ensures var r := Bisected(q, lo, hi, steps);
      && lo <= r <= hi && q.Fits(r)
      && !q.Fits(r + (hi - lo) / Pow2(steps)) && r + (hi - lo) / Pow2(steps) <= hi
    decreases steps
  {
    if steps > 0 {
      var mid := (lo + hi) / 2.0;
      if q.Fits(mid) { BisectionBrackets(q, mid, hi, steps - 1); } else { BisectionBrackets(q, lo, mid, steps - 1); }
      HalfQuotient(hi - lo, Pow2(steps - 1));
    }
  }

  lemma {:induction false} BisectionIsNearOptimal(q: Request, lo: real, hi: real, steps: nat, larger: real)
    requires q.Bounded() && lo <= hi && q.Fits(lo) && !q.Fits(hi)
    ensures var r := Bisected(q, lo, hi, steps);
      && lo <= r <= hi && q.Fits(r)
      && (r + (hi - lo) / Pow2(steps) <= larger ==> !q.Fits(larger))
  {
    BisectionBrackets(q, lo, hi, steps);
    var bound := Bisected(q, lo, hi, steps) + (hi - lo) / Pow2(steps);
    if bound <= larger { OverflowGrows(q, bound, larger); }
  }

  lemma FitNearOptimal(q: Request, minFontRatio: real, larger: real)
    requires q.Bounded()
    ensures var floor := q.Floor(minFontRatio);
      var r := Fitted(q, minFontRatio);
      && r.fontSize <= q.maxFontSize && r.letterSpacing == q.SpacingAt(r.fontSize)
      && (q.Fits(r.fontSize) <==> q.Fits(floor))
      && (q.Fits(q.maxFontSize) ==> r.fontSize == q.maxFontSize)
      && (!q.Fits(floor) ==> r.fontSize == floor)
      && (q.Fits(floor) && !q.Fits(q.maxFontSize) ==>
           (r.fontSize + (q.maxFontSize - floor) / Pow2(FIT_ITERATIONS) <= larger ==> !q.Fits(larger)))
  {
    hide Bisected, Pow2;
    var floor := q.Floor(minFontRatio);
    assert q.SpacingAt(q.maxFontSize) == q.letterSpacing;
    assert floor <= q.maxFontSize;
    hide Request.Fits, Request.SpacingAt, Request.Floor;
    if !q.Fits(floor) {
      OverflowGrows(q, floor, q.maxFontSize);
    } else if !q.Fits(q.maxFontSize) {
      BisectionIsNearOptimal(q, floor, q.maxFontSize, FIT_ITERATIONS, larger);
    }
  }

  /**
   The fit is the maximum size when that fits and the floor when even that does not;
   otherwise it fits, and no size from (max - floor) / 2^24 above it upward does.
   */
  lemma FitIsNearOptimal(q: Request, minFontRatio: real, larger: real)
    requires q.boxH > 0.0 && q.boxW > 0.0 && q.maxFontSize > 0.0
    ensures var floor := if minFontRatio < 1.0 then q.maxFontSize * minFontRatio else q.maxFontSize;
      var r := Fitted(q, minFontRatio);
      && r.fontSize <= q.maxFontSize && r.letterSpacing == q.letterSpacing * (r.fontSize / q.maxFontSize)
      && (q.Fits(r.fontSize) <==> q.Fits(floor))
      && (q.Fits(q.maxFontSize) ==> r.fontSize == q.maxFontSize)
      && (!q.Fits(floor) ==> r.fontSize == floor)
      && (q.Fits(floor) && !q.Fits(q.maxFontSize) ==>
           (r.fontSize + (q.maxFontSize - floor) / 16777216.0 <= larger ==> !q.Fits(larger)))
  {
    hide Fitted, Pow2, Request.Fits, Request.Floor;
    FitNearOptimal(q, minFontRatio, larger);
    FloorShare(q, minFontRatio);
    TwoTo24();
  }

  lemma FloorShare(q: Request, minFontRatio: real)
    requires q.maxFontSize > 0.0
    ensures q.Floor(minFontRatio) == if minFontRatio < 1.0 then q.maxFontSize * minFontRatio else q.maxFontSize
  {
    if minFontRatio < 1.0 {
      MulMono(minFontRatio, 1.0, q.maxFontSize);
    } else {
      MulMono(1.0, minFontRatio, q.maxFontSize);
    }
  }

  lemma TwoTo24()
    ensures Pow2(FIT_ITERATIONS) == 16777216.0
  {
    assert Pow2(2) == 4.0 && Pow2(4) == 16.0 && Pow2(6) == 64.0 && Pow2(8) == 256.0 && Pow2(10) == 1024.0;
    assert Pow2(12) == 4096.0 && Pow2(14) == 16384.0 && Pow2(16) == 65536.0 && Pow2(18) == 262144.0;
    assert Pow2(20) == 1048576.0 && Pow2(22) == 4194304.0;
  }

  /** The fitted size fits exactly when the floor does. */
  lemma FitSucceedsExactly(q: Request, minFontRatio: real)
    requires q.Bounded()
    ensures var r := Fitted(q, minFontRatio);
      r.letterSpacing == q.SpacingAt(r.fontSize) && (q.Fits(r.fontSize) <==> q.Fits(q.Floor(minFontRatio)))
  {
    FitNearOptimal(q, minFontRatio, 0.0);
    hide Fitted, Bisected, Pow2, Request.Fits, Request.Floor, Request.SpacingAt;
  }

  // ---------------------------------------------------------------- text on one line

  /** A run of `n` code points is no longer than the box is wide, or than one pixel. */
  predicate RunFits(n: int, fontSize: real, letterSpacing: real, boxW: real, ratio: real) {
    var glyph := if ratio > 0.0 then ratio else 0.62;
    n as real * fontSize * glyph + (n - 1) as real * letterSpacing <= if boxW > 1.0 then boxW else 1.0
  }

  lemma RunFitsIsNotOver(n: nat, fontSize: real, letterSpacing: real, boxW: real, ratio: real)
    requires n >= 1
    ensures RunFits(n, fontSize, letterSpacing, boxW, ratio)
       <==> !Measure(fontSize, letterSpacing, boxW, ratio).Over(n)
  {
  }

  /**
   The greedy wrap of a segment, told by its lines alone: every line has a code point, every beginning
   of two or more code points of a line fits, and no line but the last would fit one more.
   */
  lemma {:induction false} WrapIsGreedy(segment: string, fontSize: real, letterSpacing: real, boxW: real, ratio: real)
    requires segment != ""
    ensures var lines := SegmentLines(Measure(fontSize, letterSpacing, boxW, ratio), segment);
      && Concat(lines) == segment
      && (forall i :: 0 <= i < |lines| ==> |lines[i]| >= 1)
      && (forall i, j :: 0 <= i < |lines| && 2 <= j <= |lines[i]| ==> RunFits(j, fontSize, letterSpacing, boxW, ratio))
      && (forall i :: 0 <= i < |lines| - 1 ==> !RunFits(|lines[i]| + 1, fontSize, letterSpacing, boxW, ratio))
  {
    var m := Measure(fontSize, letterSpacing, boxW, ratio);
    var k := Capacity(m, |segment|);
    ChunksConcat(segment, k);
    ChunkSizes(segment, k);
    forall n: nat | n >= 1 ensures RunFits(n, fontSize, letterSpacing, boxW, ratio) <==> !m.Over(n) {
      RunFitsIsNotOver(n, fontSize, letterSpacing, boxW, ratio);
    }
    hide RunFits, Measure.Over, Chunks, Concat;
    if k == |segment| { assert |Chunks(segment, k)| == 1; }
  }

  lemma {:induction false} ChunkSizes(s: string, k: nat)
    requires k >= 1 && s != ""
    ensures forall i :: 0 <= i < |Chunks(s, k)| ==> 1 <= |Chunks(s, k)[i]| <= k
    ensures forall i :: 0 <= i < |Chunks(s, k)| - 1 ==> |Chunks(s, k)[i]| == k
    ensures |s| <= k ==> |Chunks(s, k)| == 1
    decreases |s|
  {
    if |s| > k { ChunkSizes(s[k..], k); }
  }

  /** A run's length is linear in its code points, so between two runs that fit every run fits. */
  lemma RunsBetweenFit(n: nat, j: nat, fontSize: real, letterSpacing: real, boxW: real, ratio: real)
    requires 2 <= j <= n
    requires RunFits(2, fontSize, letterSpacing, boxW, ratio) && RunFits(n, fontSize, letterSpacing, boxW, ratio)
    ensures RunFits(j, fontSize, letterSpacing, boxW, ratio)
  {
    var m := Measure(fontSize, letterSpacing, boxW, ratio);
    RunFitsIsNotOver(2, fontSize, letterSpacing, boxW, ratio);
    RunFitsIsNotOver(j, fontSize, letterSpacing, boxW, ratio);
    RunFitsIsNotOver(n, fontSize, letterSpacing, boxW, ratio);
    RunLengthLinear(m, 2);
    RunLengthLinear(m, j);
    RunLengthLinear(m, n);
    Between(2.0, j as real, n as real, m.Slope(), m.Limit() + m.letterSpacing);
    hide RunFits, RunLength, Measure.Slope, Measure.Limit;
  }

  lemma Between(x: real, y: real, z: real, slope: real, bound: real)
    requires x <= y <= z && x * slope <= bound && z * slope <= bound
    ensures y * slope <= bound
  {
    if slope >= 0.0 {
      MulMono(y, z, slope);
    } else {
      MulMono(x, y, -slope);
      assert x * -slope == -(x * slope) && y * -slope == -(y * slope);
    }
  }

  /** Text that is never broken: the runs of two and of all its code points fit, or it has one at most. */
  predicate OneLine(n: nat, fontSize: real, letterSpacing: real, boxW: real, ratio: real) {
    n <= 1 || (RunFits(2, fontSize, letterSpacing, boxW, ratio) && RunFits(n, fontSize, letterSpacing, boxW, ratio))
  }

  lemma {:induction false} OneSegment(m: Measure, text: string)
    requires '\n' !in text
    ensures Wrapped(m, text) == SegmentLines(m, text)
  {
    SplitNothing(text);
    assert [text][..0] == [];
    assert WrapAll(m, []) == [];
  }

  lemma {:induction false} SplitNothing(text: string)
    requires '\n' !in text
    ensures SplitLines(text) == [text]
  {
    if text != "" {
      SplitNothing(text[1..]);
      assert [text[0]] + text[1..] == text;
    }
  }

  lemma {:induction false} OneLineExactly(text: string, fontSize: real, letterSpacing: real, boxW: real, ratio: real)
    requires '\n' !in text
    ensures var lines := Wrapped(Measure(fontSize, letterSpacing, boxW, ratio), text);
      (|lines| == 1 <==> OneLine(|text|, fontSize, letterSpacing, boxW, ratio)) && (|lines| == 1 ==> lines == [text])
  {
    var m := Measure(fontSize, letterSpacing, boxW, ratio);
    OneSegment(m, text);
    hide Wrapped, RunFits;
    if text != "" {
      WrapIsGreedy(text, fontSize, letterSpacing, boxW, ratio);
      var lines := SegmentLines(m, text);
      hide SegmentLines;
      if |lines| == 1 {
        assert lines[0] + Concat([]) == Concat(lines) && lines[1..] == [];
      } else {
        ConcatSplit(lines);
        var j := |lines[0]| + 1;
        if OneLine(|text|, fontSize, letterSpacing, boxW, ratio) {
          RunsBetweenFit(|text|, j, fontSize, letterSpacing, boxW, ratio);
        }
      }
    }
  }

  /** What follows the first of several non-empty lines is not empty. */
  lemma ConcatSplit(lines: seq<string>)
    requires |lines| >= 2 && forall i :: 0 <= i < |lines| ==> |lines[i]| >= 1
    ensures |lines[0]| + 1 <= |Concat(lines)|
  {
    assert lines[1..][0] == lines[1];
  }

  /**
   Text without newlines in a box too low for two lines of its largest size keeps that size exactly when
   it stays on one line at that size and the line is no taller than the box; its spacing is then kept too.
   */
  lemma {:induction false} KeepsItsSizeExactly(q: Request, minFontRatio: real)
    requires q.boxH > 0.0 && q.boxW > 0.0 && q.maxFontSize > 0.0 && minFontRatio < 1.0 && '\n' !in q.text
    ensures var kept := OneLine(|q.text|, q.maxFontSize, q.letterSpacing, q.boxW, q.ratio)
                        && 1.25 * q.maxFontSize <= q.boxH;
      && (kept ==> Fitted(q, minFontRatio) == Sized(q.maxFontSize, q.letterSpacing))
      && (q.boxH < 2.5 * q.maxFontSize ==> (Fitted(q, minFontRatio).fontSize == q.maxFontSize <==> kept))
  {
    var lines := |Wrapped(q.At(q.maxFontSize), q.text)|;
    SizeKeptWhenItFits(q, minFontRatio);
    FitsByLines(q);
    LinesTall(lines, q.maxFontSize);
    hide Wrapped, OneLine, Fitted, LinesHeight, Request.Fits, Request.At;
    OneLineExactly(q.text, q.maxFontSize, q.letterSpacing, q.boxW, q.ratio);
  }

  /** At its largest size a text has the spacing it was given. */
  lemma FitsByLines(q: Request)
    requires q.Bounded()
    ensures q.At(q.maxFontSize) == Measure(q.maxFontSize, q.letterSpacing, q.boxW, q.ratio)
    ensures q.Fits(q.maxFontSize) <==> LinesHeight(|Wrapped(q.At(q.maxFontSize), q.text)|, q.maxFontSize) <= q.boxH
  {
  }

  lemma LinesTall(lines: nat, fontSize: real)
    requires fontSize > 0.0
    ensures LinesHeight(1, fontSize) == 1.25 * fontSize
    ensures lines >= 2 ==> LinesHeight(lines, fontSize) >= 2.5 * fontSize
  {
    if lines >= 2 { MulMono(2.0, lines as real, fontSize); }
  }

  lemma {:induction false} SizeKeptWhenItFits(q: Request, minFontRatio: real)
    requires q.Bounded() && minFontRatio < 1.0
    ensures q.Fits(q.maxFontSize) ==> Fitted(q, minFontRatio) == Sized(q.maxFontSize, q.letterSpacing)
    ensures Fitted(q, minFontRatio).fontSize == q.maxFontSize ==> q.Fits(q.maxFontSize)
  {
    if !q.Fits(q.maxFontSize) {
      MulMono(minFontRatio, 1.0, q.maxFontSize);
      var floor := q.Floor(minFontRatio);
      assert floor < q.maxFontSize;
      BisectedBelow(q, floor, q.maxFontSize, FIT_ITERATIONS);
    }
  }

  lemma {:induction false} BisectedBelow(q: Request, lo: real, hi: real, steps: nat)
    requires q.maxFontSize != 0.0 && lo < hi
    ensures lo <= Bisected(q, lo, hi, steps) < hi
    decreases steps
  {
    if steps > 0 {
      BisectedBelow(q, (lo + hi) / 2.0, hi, steps - 1);
      BisectedBelow(q, lo, (lo + hi) / 2.0, steps - 1);
    }
  }

  /**
   The length of the whole run is not enough when the spacing is more negative than the advance: three
   code points of ten pixels with eleven taken off between them measure eight, two measure nine.
   */
  lemma WholeRunIsNotEnough()
    ensures var q := Request("abc", 10.0, -11.0, 8.5, 12.5, 1.0);
      && RunFits(3, 10.0, -11.0, 8.5, 1.0) && !RunFits(2, 10.0, -11.0, 8.5, 1.0)
      && Fitted(q, MIN_FONT_RATIO).fontSize < 10.0
  {
    var q := Request("abc", 10.0, -11.0, 8.5, 12.5, 1.0);
    KeepsItsSizeExactly(q, MIN_FONT_RATIO);
    FitIsNearOptimal(q, MIN_FONT_RATIO, 0.0);
    hide Fitted;
  }

  // ---------------------------------------------------------------- scale freedom

  lemma CapacitySame(m: Measure, m': Measure, n: nat)
    requires n >= 1 && Tighter(m, m') && Tighter(m', m)
    ensures Capacity(m, n) == Capacity(m', n)
  {
    var k, k' := Capacity(m, n), Capacity(m', n);
    assert k < n ==> m'.Over(k + 1);
    assert k' < n ==> m.Over(k' + 1);
  }

  lemma {:induction false} LinesSame(m: Measure, m': Measure, segments: seq<string>)
    requires Tighter(m, m') && Tighter(m', m)
    ensures WrapAll(m, segments) == WrapAll(m', segments)
  {
    if segments != [] {
      LinesSame(m, m', segments[..|segments| - 1]);
      var last := segments[|segments| - 1];
      if last != "" { CapacitySame(m, m', |last|); }
    }
  }

  function ScaledMeasure(k: real, m: Measure): Measure {
    Measure(Scale(k, m.fontSize), Scale(k, m.letterSpacing), Scale(k, m.maxWidth), m.ratio)
  }

  function ScaledRequest(k: real, q: Request): Request {
    Request(q.text, Scale(k, q.maxFontSize), Scale(k, q.letterSpacing), Scale(k, q.boxW), Scale(k, q.boxH), q.ratio)
  }

  /** The width limit of one pixel, the only absolute term, stays out of play in both spaces. */
  predicate WideEnough(k: real, width: real) { k > 0.0 && width >= 1.0 && Scale(k, width) >= 1.0 }

  lemma LimitScalesExactly(k: real, width: real)
    requires k > 0.0 && k != 1.0
    ensures Max(1.0, Scale(k, width)) == Scale(k, Max(1.0, width)) <==> WideEnough(k, width)
  {
    if width < 1.0 { assert k * width < k; } else { MulMono(1.0, width, k); }
  }

  lemma RunScales(k: real, n: nat, size: real, spacing: real, ratio: real)
    ensures RunLength(n, Scale(k, size), Scale(k, spacing), ratio) == Scale(k, RunLength(n, size, spacing, ratio))
  {
    var glyphs := if n == 0 then 1 else n;
    assert glyphs as real * (k * size) * Advance(ratio) == k * (glyphs as real * size * Advance(ratio));
    assert (glyphs - 1) as real * (k * spacing) == k * ((glyphs - 1) as real * spacing);
  }

  lemma ScaledLimit(k: real, width: real)
    requires WideEnough(k, width)
    ensures Max(1.0, Scale(k, width)) == Scale(k, Max(1.0, width))
  {
  }

  /** Scaling a measure outside the one-pixel limit changes no decision of the wrap. */
  lemma OverScales(k: real, m: Measure, n: nat)
    requires WideEnough(k, m.maxWidth)
    ensures ScaledMeasure(k, m).Over(n) <==> m.Over(n)
  {
    RunScales(k, n, m.fontSize, m.letterSpacing, m.ratio);
    ScaledLimit(k, m.maxWidth);
    ScaleOrder(k, RunLength(n, m.fontSize, m.letterSpacing, m.ratio), m.Limit());
    hide RunLength, Scale;
  }

  lemma LinesScale(k: real, m: Measure, text: string)
    requires WideEnough(k, m.maxWidth)
    ensures Wrapped(ScaledMeasure(k, m), text) == Wrapped(m, text)
  {
    forall n: nat ensures ScaledMeasure(k, m).Over(n) <==> m.Over(n) { OverScales(k, m, n); }
    hide Measure.Over;
    LinesSame(m, ScaledMeasure(k, m), SplitLines(text));
  }

  lemma SpacingScales(k: real, q: Request, size: real)
    requires k > 0.0 && q.maxFontSize != 0.0
    ensures Scale(k, q.maxFontSize) != 0.0
    ensures ScaledRequest(k, q).SpacingAt(Scale(k, size)) == Scale(k, q.SpacingAt(size))
    ensures ScaledRequest(k, q).At(Scale(k, size)) == ScaledMeasure(k, q.At(size))
  {
    ScaleRatio(k, size, q.maxFontSize);
    ScaleProduct(k, q.letterSpacing, size / q.maxFontSize);
    hide Scale;
    var share := Scale(k, size) / Scale(k, q.maxFontSize);
    assert ScaledRequest(k, q).SpacingAt(Scale(k, size)) == Scale(k, q.letterSpacing) * share;
  }

  lemma HeightScales(k: real, lines: nat, size: real)
    ensures LinesHeight(lines, Scale(k, size)) == Scale(k, LinesHeight(lines, size))
  {
    ScaleProduct(k, lines as real, size);
    ScaleProduct(k, lines as real * size, LINE_HEIGHT);
  }

  lemma FitsScales(k: real, q: Request, size: real)
    requires WideEnough(k, q.boxW) && q.maxFontSize != 0.0 && Scale(k, q.maxFontSize) != 0.0
    ensures ScaledRequest(k, q).Fits(Scale(k, size)) <==> q.Fits(size)
  {
    SpacingScales(k, q, size);
    LinesScale(k, q.At(size), q.text);
    HeightScales(k, |Wrapped(q.At(size), q.text)|, size);
    ScaleOrder(k, BlockHeight(q.At(size), q.text), q.boxH);
    hide Scale, Wrapped, LinesHeight, Request.SpacingAt;
  }

  lemma {:induction false} BisectionScales(k: real, q: Request, lo: real, hi: real, steps: nat)
    requires WideEnough(k, q.boxW) && q.maxFontSize != 0.0 && Scale(k, q.maxFontSize) != 0.0
    ensures Bisected(ScaledRequest(k, q), Scale(k, lo), Scale(k, hi), steps) == Scale(k, Bisected(q, lo, hi, steps))
    decreases steps
  {
    if steps > 0 {
      var mid := (lo + hi) / 2.0;
      ScaleLinear(k, lo, hi);
      ScaleLinear(k, lo + hi, 0.0);
      FitsScales(k, q, mid);
      hide Scale, Request.Fits;
      assert (Scale(k, lo) + Scale(k, hi)) / 2.0 == Scale(k, mid);
      BisectionScales(k, q, mid, hi, steps - 1);
      BisectionScales(k, q, lo, mid, steps - 1);
    }
  }

  lemma FloorScales(k: real, q: Request, minFontRatio: real)
    requires k > 0.0
    ensures ScaledRequest(k, q).Floor(minFontRatio) == Scale(k, q.Floor(minFontRatio))
  {
    ScaleProduct(k, q.maxFontSize, minFontRatio);
    ScaleOrder(k, q.maxFontSize * minFontRatio, q.maxFontSize);
    hide Scale;
  }

  lemma BoundedScales(k: real, q: Request)
    requires k > 0.0
    ensures ScaledRequest(k, q).Bounded() <==> q.Bounded()
  {
    ScaleOrder(k, q.maxFontSize, 0.0);
    ScaleOrder(k, q.boxH, 0.0);
    ScaleOrder(k, q.boxW, 0.0);
  }

  /** The fitted size and spacing scale exactly, through the whole bisection. */
  lemma FittedScales(k: real, q: Request, minFontRatio: real)
    requires WideEnough(k, q.boxW)
    ensures var r := Fitted(q, minFontRatio);
      Fitted(ScaledRequest(k, q), minFontRatio) == Sized(Scale(k, r.fontSize), Scale(k, r.letterSpacing))
  {
    var q', floor := ScaledRequest(k, q), q.Floor(minFontRatio);
    BoundedScales(k, q);
    if q.Bounded() {
      FloorScales(k, q, minFontRatio);
      SpacingScales(k, q, floor);
      FitsScales(k, q, q.maxFontSize);
      FitsScales(k, q, floor);
      var size := Bisected(q, floor, q.maxFontSize, FIT_ITERATIONS);
      BisectionScales(k, q, floor, q.maxFontSize, FIT_ITERATIONS);
      SpacingScales(k, q, size);
      hide Scale, Bisected, Request.Fits, Request.Floor, Request.SpacingAt, Request.Bounded;
    }
  }

  /** Fitting and then wrapping is scale-free: the same lines, at exactly `k` times the size and spacing. */
  lemma FitIsScaleFree(k: real, q: Request, minFontRatio: real)
    requires WideEnough(k, q.boxW)
    ensures var r, r' := Fitted(q, minFontRatio), Fitted(ScaledRequest(k, q), minFontRatio);
      && r' == Sized(Scale(k, r.fontSize), Scale(k, r.letterSpacing))
      && Wrapped(Measure(r'.fontSize, r'.letterSpacing, Scale(k, q.boxW), q.ratio), q.text)
         == Wrapped(Measure(r.fontSize, r.letterSpacing, q.boxW, q.ratio), q.text)
  {
    FittedScales(k, q, minFontRatio);
    var r := Fitted(q, minFontRatio);
    LinesScale(k, Measure(r.fontSize, r.letterSpacing, q.boxW, q.ratio), q.text);
    hide Scale, Fitted, Wrapped;
  }
}
