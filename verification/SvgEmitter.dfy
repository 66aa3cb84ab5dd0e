/**
 Serialising a scene: the definitions loop, the body loop that refers to them, and the
 escaping of attribute values. Markup is modelled as a sequence of parts.
 */
module SvgEmitter {
  import opened Common
  import opened LayerGeometry
  import opened Scene

  // ---------------------------------------------------------------- ids

  /** `replaceAll(':', '')`. */
  function StripColons(s: string): (r: string)
    ensures ':' !in r
  {
    if s == "" then "" else (if s[0] == ':' then "" else [s[0]]) + StripColons(s[1..])
  }

  /** Character by character: a colon goes, anything else stays. */
  lemma {:induction false} StripsOnlyColons(s: string, c: char)
    ensures StripColons(s + [c]) == StripColons(s) + if c == ':' then "" else [c]
    ensures StripColons("") == ""
  {
    if s == "" {
      assert [c][1..] == [];
    } else {
      StripsOnlyColons(s[1..], c);
      assert (s + [c])[1..] == s[1..] + [c];
    }
  }

  function QualifiedId(base: string, g: nat, i: nat): string {
    base + ['-'] + Decimal(g) + ['-'] + Decimal(i)
  }

  function FrameClipId(prefix: string, g: nat, i: nat): string { QualifiedId(StripColons(prefix) + "-dlf", g, i) }

  function TextPathId(prefix: string, g: nat, t: nat): string { QualifiedId(prefix + "-txp", g, t) }

  /** The numbers and the base can be read back from an id. */
  lemma QualifiedIdInjective(base: string, g: nat, i: nat, base': string, g': nat, i': nat)
    requires QualifiedId(base, g, i) == QualifiedId(base', g', i')
    ensures base == base' && g == g' && i == i'
  {
    SplitAtLastSeparator(base + ['-'] + Decimal(g), base' + ['-'] + Decimal(g'), '-', Decimal(i), Decimal(i'));
    SplitAtLastSeparator(base, base', '-', Decimal(g), Decimal(g'));
    DecimalInjective(g, g');
    DecimalInjective(i, i');
  }

  /** A frame's id is never a text path's, whatever the scenes they belong to. */
  lemma FrameAndTextIdsDiffer(prefix: string, g: nat, i: nat, prefix': string, g': nat, t: nat)
    ensures FrameClipId(prefix, g, i) != TextPathId(prefix', g', t)
  {
    var frame, text := StripColons(prefix) + "-dlf", prefix' + "-txp";
    assert frame[|frame| - 1] == 'f' && text[|text| - 1] == 'p';
    if FrameClipId(prefix, g, i) == TextPathId(prefix', g', t) {
      QualifiedIdInjective(frame, g, i, text, g', t);
    }
  }

  /**
   Two scenes on one page: a text path's id names one text of one scene, while a frame's id names the
   same place in every scene whose prefix is the same without its colons.
   */
  lemma IdsAcrossScenes(prefix: string, g: nat, i: nat, prefix': string, g': nat, i': nat)
    ensures TextPathId(prefix, g, i) == TextPathId(prefix', g', i') <==> prefix == prefix' && g == g' && i == i'
    ensures FrameClipId(prefix, g, i) == FrameClipId(prefix', g', i')
       <==> StripColons(prefix) == StripColons(prefix') && g == g' && i == i'
  {
    var (bare, bare') := (StripColons(prefix), StripColons(prefix'));
    if TextPathId(prefix, g, i) == TextPathId(prefix', g', i') {
      QualifiedIdInjective(prefix + "-txp", g, i, prefix' + "-txp", g', i');
      SameBeforeSuffix(prefix, prefix', "-txp");
    }
    if FrameClipId(prefix, g, i) == FrameClipId(prefix', g', i') {
      QualifiedIdInjective(bare + "-dlf", g, i, bare' + "-dlf", g', i');
      SameBeforeSuffix(bare, bare', "-dlf");
    }
  }

  lemma SameBeforeSuffix(a: string, b: string, suffix: string)
    requires a + suffix == b + suffix
    ensures a == b
  {
    assert (a + suffix)[..|a|] == a && (b + suffix)[..|b|] == b;
  }

  // ---------------------------------------------------------------- parts

  datatype Definition =
    | Mask(id: string, href: string, frame: Frame)
    | Clip(id: string, shape: Shape, frame: Frame)

  datatype Reference = MaskRef(id: string) | ClipRef(id: string)

  datatype Part =
    | SvgOpen(width: real, height: real)
    | Defs(defs: seq<Definition>)
    | Background(href: string)
    | GroupOpen(key: string, visible: bool)
    | Image(image: SceneImage, clip: Option<Reference>)
    | Text(text: SceneText, pathId: Option<string>)
    | GroupClose
    | SvgClose

  predicate HasHref(h: Option<string>) { h.Some? && h.value != "" }

  function ImageDefinition(im: SceneImage, id: string): seq<Definition> {
    if im.frame.None? || im.shape == NoShape then []
    else if im.shape == ImageMask then
      if HasHref(im.shapeHref) then [Mask(id, im.shapeHref.value, im.frame.value)] else []
    else [Clip(id, im.shape, im.frame.value)]
  }

  function ImagePart(im: SceneImage, id: string): Part {
    if im.frame.Some? && im.shape != NoShape then
      if im.shape == ImageMask
      then Image(im, if HasHref(im.shapeHref) then Some(MaskRef(id)) else None)
      else Image(im, Some(ClipRef(id)))
    else Image(im, None)
  }

  /** A curved node defines, and refers to, its own path. */
  function TextPart(t: SceneText, id: string): Part { Text(t, if t.curve != 0.0 then Some(id) else None) }

  // The first `n` images or texts of a group, and the first `n` groups.

  function ImageDefinitions(images: seq<SceneImage>, prefix: string, g: nat, n: nat): seq<Definition>
    requires n <= |images|
  {
    if n == 0 then []
    else ImageDefinitions(images, prefix, g, n - 1) + ImageDefinition(images[n - 1], FrameClipId(prefix, g, n - 1))
  }

  function Definitions(groups: seq<SceneGroup>, prefix: string, n: nat): seq<Definition>
    requires n <= |groups|
  {
    if n == 0 then []
    else
      var last := groups[n - 1].images;
      Definitions(groups, prefix, n - 1) + ImageDefinitions(last, prefix, n - 1, |last|)
  }

  function ImageParts(images: seq<SceneImage>, prefix: string, g: nat, n: nat): seq<Part>
    requires n <= |images|
  {
    if n == 0 then []
    else ImageParts(images, prefix, g, n - 1) + [ImagePart(images[n - 1], FrameClipId(prefix, g, n - 1))]
  }

  function TextParts(texts: seq<SceneText>, prefix: string, g: nat, n: nat): seq<Part>
    requires n <= |texts|
  {
    if n == 0 then []
    else TextParts(texts, prefix, g, n - 1) + [TextPart(texts[n - 1], TextPathId(prefix, g, n - 1))]
  }

  function GroupParts(group: SceneGroup, prefix: string, g: nat): seq<Part> {
    [GroupOpen(group.key, group.visible)] + ImageParts(group.images, prefix, g, |group.images|)
      + TextParts(group.texts, prefix, g, |group.texts|) + [GroupClose]
  }

  function Body(groups: seq<SceneGroup>, prefix: string, n: nat): seq<Part>
    requires n <= |groups|
  {
    if n == 0 then [] else Body(groups, prefix, n - 1) + GroupParts(groups[n - 1], prefix, n - 1)
  }

  function Head(scene: DesignScene, defs: seq<Definition>): seq<Part> {
    [SvgOpen(scene.width, scene.height)] + (if defs != [] then [Defs(defs)] else [])
      + (if HasHref(scene.backgroundHref) then [Background(scene.backgroundHref.value)] else [])
  }

  /** The definitions loop. */
  method CollectDefinitions(groups: seq<SceneGroup>, prefix: string) returns (defs: seq<Definition>)
    ensures defs == Definitions(groups, prefix, |groups|)
  {
    hide FrameClipId;
    defs := [];
    for g := 0 to |groups|
      invariant defs == Definitions(groups, prefix, g)
    {
      ghost var before := defs;
      var images := groups[g].images;
      for i := 0 to |images|
        invariant defs == before + ImageDefinitions(images, prefix, g, i)
      {
        var im, id := images[i], FrameClipId(prefix, g, i);
        if im.frame.None? || im.shape == NoShape {
          continue;
        }
        if im.shape == ImageMask {
          if !HasHref(im.shapeHref) {
            continue;
          }
          defs := defs + [Mask(id, im.shapeHref.value, im.frame.value)];
        } else {
          defs := defs + [Clip(id, im.shape, im.frame.value)];
        }
      }
    }
  }

  /** One turn of the body loop. */
  method DrawGroup(group: SceneGroup, prefix: string, g: nat) returns (parts: seq<Part>)
    ensures parts == GroupParts(group, prefix, g)
  {
    hide FrameClipId, TextPathId, ImagePart, TextPart;
    parts := [GroupOpen(group.key, group.visible)];
    ghost var start := parts;
    for i := 0 to |group.images|
      invariant parts == start + ImageParts(group.images, prefix, g, i)
    {
      parts := parts + [ImagePart(group.images[i], FrameClipId(prefix, g, i))];
    }
    ghost var drawn := parts;
    for t := 0 to |group.texts|
      invariant parts == drawn + TextParts(group.texts, prefix, g, t)
    {
      parts := parts + [TextPart(group.texts[t], TextPathId(prefix, g, t))];
    }
    parts := parts + [GroupClose];
  }

  /** The body loop. */
  method DrawBody(groups: seq<SceneGroup>, prefix: string) returns (parts: seq<Part>)
    ensures parts == Body(groups, prefix, |groups|)
  {
    hide GroupParts;
    parts := [];
    for g := 0 to |groups|
      invariant parts == Body(groups, prefix, g)
    {
      var group := DrawGroup(groups[g], prefix, g);
      parts := parts + group;
    }
  }

  /** `sceneToSvgString`: definitions first, then the body that refers to them. */
  method SceneToSvg(scene: DesignScene, prefix: string) returns (parts: seq<Part>)
    ensures var defs := Definitions(scene.groups, prefix, |scene.groups|);
      parts == [SvgOpen(scene.width, scene.height)] + (if defs == [] then [] else [Defs(defs)])
               + (match scene.backgroundHref
                  case Some(href) => (if href == "" then [] else [Background(href)])
                  case None => [])
               + Body(scene.groups, prefix, |scene.groups|) + [SvgClose]
  {
    hide Definitions, Body;
    parts := [SvgOpen(scene.width, scene.height)];
    var defs := CollectDefinitions(scene.groups, prefix);
    if defs != [] {
      parts := parts + [Defs(defs)];
    }
    if HasHref(scene.backgroundHref) {
      parts := parts + [Background(scene.backgroundHref.value)];
    }
    assert parts == Head(scene, defs);
    var body := DrawBody(scene.groups, prefix);
    parts := parts + body + [SvgClose];
  }

  // ---------------------------------------------------------------- reference integrity

  /** What the body refers to, in drawing order. */
  function References(parts: seq<Part>): seq<Reference> {
    if parts == [] then []
    else
      var last := parts[|parts| - 1];
      References(parts[..|parts| - 1]) + (if last.Image? && last.clip.Some? then [last.clip.value] else [])
  }

  function ReferenceTo(d: Definition): Reference {
    match d
    case Mask(id, _, _) => MaskRef(id)
    case Clip(id, _, _) => ClipRef(id)
  }

  function ReferencesTo(defs: seq<Definition>): seq<Reference> {
    seq(|defs|, i requires 0 <= i < |defs| => ReferenceTo(defs[i]))
  }

  lemma {:induction false} ReferencesConcat(a: seq<Part>, b: seq<Part>)
    ensures References(a + b) == References(a) + References(b)
  {
    if b == [] {
      assert a + b == a;
    } else {
      ReferencesConcat(a, b[..|b| - 1]);
      assert (a + b)[..|a + b| - 1] == a + b[..|b| - 1];
    }
  }

  lemma ReferencesToConcat(a: seq<Definition>, b: seq<Definition>)
    ensures ReferencesTo(a + b) == ReferencesTo(a) + ReferencesTo(b)
  {
  }

  lemma ImageReference(im: SceneImage, id: string)
    ensures References([ImagePart(im, id)]) == ReferencesTo(ImageDefinition(im, id))
  {
    assert [ImagePart(im, id)][..0] == [];
  }

  lemma {:induction false} ImageReferences(images: seq<SceneImage>, prefix: string, g: nat, n: nat)
    requires n <= |images|
    ensures References(ImageParts(images, prefix, g, n)) == ReferencesTo(ImageDefinitions(images, prefix, g, n))
  {
    if n > 0 {
      var im, id := images[n - 1], FrameClipId(prefix, g, n - 1);
      ImageReferences(images, prefix, g, n - 1);
      ImageReference(im, id);
      ReferencesConcat(ImageParts(images, prefix, g, n - 1), [ImagePart(im, id)]);
      ReferencesToConcat(ImageDefinitions(images, prefix, g, n - 1), ImageDefinition(im, id));
      hide References, ReferencesTo, ImagePart, ImageDefinition, FrameClipId;
    }
  }

  lemma {:induction false} TextsReferToNoFrame(texts: seq<SceneText>, prefix: string, g: nat, n: nat)
    requires n <= |texts|
    ensures References(TextParts(texts, prefix, g, n)) == []
  {
    if n > 0 {
      TextsReferToNoFrame(texts, prefix, g, n - 1);
      var before := TextParts(texts, prefix, g, n - 1);
      assert (before + [TextPart(texts[n - 1], TextPathId(prefix, g, n - 1))])[..|before|] == before;
    }
  }

  lemma NoReference(p: Part)
    requires !p.Image?
    ensures References([p]) == []
  {
    assert [p][..0] == [];
  }

  lemma GroupReferences(group: SceneGroup, prefix: string, g: nat)
    ensures References(GroupParts(group, prefix, g))
         == ReferencesTo(ImageDefinitions(group.images, prefix, g, |group.images|))
  {
    var open, images := [GroupOpen(group.key, group.visible)], ImageParts(group.images, prefix, g, |group.images|);
    var texts := TextParts(group.texts, prefix, g, |group.texts|);
    ImageReferences(group.images, prefix, g, |group.images|);
    TextsReferToNoFrame(group.texts, prefix, g, |group.texts|);
    NoReference(open[0]);
    NoReference(GroupClose);
    hide References, ImageParts, TextParts, ImageDefinitions, ReferencesTo;
    ReferencesConcat(open, images);
    ReferencesConcat(open + images, texts);
    ReferencesConcat(open + images + texts, [GroupClose]);
  }

  lemma NoReferences()
    ensures References([]) == [] && ReferencesTo([]) == []
  {
  }

  /**
   The body's references are exactly the definitions, one for one and in order, each of the
   kind it is defined as.
   */
  lemma {:induction false} ReferencesMatchDefinitions(groups: seq<SceneGroup>, prefix: string, n: nat)
    requires n <= |groups|
    ensures References(Body(groups, prefix, n)) == ReferencesTo(Definitions(groups, prefix, n))
  {
    NoReferences();
    hide References, GroupParts, ImageDefinitions, ReferencesTo;
    if n > 0 {
      var last := groups[n - 1].images;
      ReferencesMatchDefinitions(groups, prefix, n - 1);
      GroupReferences(groups[n - 1], prefix, n - 1);
      ReferencesConcat(Body(groups, prefix, n - 1), GroupParts(groups[n - 1], prefix, n - 1));
      ReferencesToConcat(Definitions(groups, prefix, n - 1), ImageDefinitions(last, prefix, n - 1, |last|));
    }
  }

  // ---------------------------------------------------------------- what is drawn

  /** An image that is drawn behind something: a shape, or a mask that has an address. */
  ghost predicate Framed(im: SceneImage) {
    && im.frame.Some? && im.shape != NoShape
    && (im.shape == ImageMask ==> im.shapeHref.Some? && im.shapeHref.value != "")
  }

  /** The definition clips to the image's own shape, or masks with its own mask, at its own frame. */
  ghost predicate Describes(d: Definition, im: SceneImage) {
    match d
    case Mask(_, href, frame) => im.shape == ImageMask && im.shapeHref == Some(href) && im.frame == Some(frame)
    case Clip(_, shape, frame) => im.shape == shape && shape != ImageMask && im.frame == Some(frame)
  }

  /** The images of the parts that are drawn behind a reference, in order. */
  function Clipped(parts: seq<Part>): seq<SceneImage> {
    if parts == [] then []
    else
      var last := parts[|parts| - 1];
      Clipped(parts[..|parts| - 1]) + (if last.Image? && last.clip.Some? then [last.image] else [])
  }

  ghost predicate DescribeAll(defs: seq<Definition>, images: seq<SceneImage>) {
    |defs| == |images| && forall i :: 0 <= i < |defs| ==> Describes(defs[i], images[i])
  }

  lemma {:induction false} ClippedConcat(a: seq<Part>, b: seq<Part>)
    ensures Clipped(a + b) == Clipped(a) + Clipped(b)
  {
    if b == [] {
      assert a + b == a;
    } else {
      ClippedConcat(a, b[..|b| - 1]);
      assert (a + b)[..|a + b| - 1] == a + b[..|b| - 1];
    }
  }

  lemma ClippedImage(im: SceneImage, id: string)
    ensures Clipped([ImagePart(im, id)]) == if Framed(im) then [im] else []
    ensures DescribeAll(ImageDefinition(im, id), Clipped([ImagePart(im, id)]))
    ensures ImagePart(im, id).Image? && ImagePart(im, id).image == im
  {
    assert [ImagePart(im, id)][..0] == [];
  }

  lemma ClippedOther(p: Part)
    requires !p.Image?
    ensures Clipped([p]) == []
  {
    assert [p][..0] == [];
  }

  lemma {:induction false} TextsClipNothing(texts: seq<SceneText>, prefix: string, g: nat, n: nat)
    requires n <= |texts|
    ensures Clipped(TextParts(texts, prefix, g, n)) == []
  {
    if n > 0 {
      TextsClipNothing(texts, prefix, g, n - 1);
      var before := TextParts(texts, prefix, g, n - 1);
      assert (before + [TextPart(texts[n - 1], TextPathId(prefix, g, n - 1))])[..|before|] == before;
    }
  }

  lemma DescribeTogether(a: seq<Definition>, x: seq<SceneImage>, b: seq<Definition>, y: seq<SceneImage>)
    requires DescribeAll(a, x) && DescribeAll(b, y)
    ensures DescribeAll(a + b, x + y)
  {
    hide Describes;
  }

  lemma {:induction false} ImagesDescribed(images: seq<SceneImage>, prefix: string, g: nat, n: nat)
    requires n <= |images|
    ensures DescribeAll(ImageDefinitions(images, prefix, g, n), Clipped(ImageParts(images, prefix, g, n)))
  {
    hide Clipped, ImagePart, ImageDefinition, FrameClipId, DescribeAll;
    if n > 0 {
      var im, id := images[n - 1], FrameClipId(prefix, g, n - 1);
      var defs, parts := ImageDefinitions(images, prefix, g, n - 1), ImageParts(images, prefix, g, n - 1);
      ImagesDescribed(images, prefix, g, n - 1);
      ClippedImage(im, id);
      ClippedConcat(parts, [ImagePart(im, id)]);
      DescribeTogether(defs, Clipped(parts), ImageDefinition(im, id), Clipped([ImagePart(im, id)]));
    } else {
      NothingClipped();
    }
  }

  lemma GroupDescribed(group: SceneGroup, prefix: string, g: nat)
    ensures
      DescribeAll(ImageDefinitions(group.images, prefix, g, |group.images|), Clipped(GroupParts(group, prefix, g)))
  {
    hide Clipped, ImageParts, TextParts, ImageDefinitions, DescribeAll;
    var open, images := [GroupOpen(group.key, group.visible)], ImageParts(group.images, prefix, g, |group.images|);
    var texts := TextParts(group.texts, prefix, g, |group.texts|);
    ImagesDescribed(group.images, prefix, g, |group.images|);
    TextsClipNothing(group.texts, prefix, g, |group.texts|);
    ClippedOther(open[0]);
    ClippedOther(GroupClose);
    ClippedConcat(open, images);
    ClippedConcat(open + images, texts);
    ClippedConcat(open + images + texts, [GroupClose]);
    assert Clipped(GroupParts(group, prefix, g)) == Clipped(images);
  }

  lemma NothingClipped()
    ensures Clipped([]) == [] && DescribeAll([], [])
  {
  }

  /** The r-th definition is of the r-th clipped image's own shape or mask, at that image's own frame. */
  lemma {:induction false} DefinitionsDescribeTheirImages(groups: seq<SceneGroup>, prefix: string, n: nat)
    requires n <= |groups|
    ensures DescribeAll(Definitions(groups, prefix, n), Clipped(Body(groups, prefix, n)))
  {
    hide Clipped, GroupParts, ImageDefinitions, DescribeAll;
    NothingClipped();
    if n > 0 {
      var last, earlier := groups[n - 1], Body(groups, prefix, n - 1);
      var added := GroupParts(last, prefix, n - 1);
      DefinitionsDescribeTheirImages(groups, prefix, n - 1);
      GroupDescribed(last, prefix, n - 1);
      ClippedConcat(earlier, added);
      DescribeTogether(Definitions(groups, prefix, n - 1), Clipped(earlier),
                       ImageDefinitions(last.images, prefix, n - 1, |last.images|), Clipped(added));
    }
  }

  lemma {:induction false} ImagePartsAt(images: seq<SceneImage>, prefix: string, g: nat, n: nat)
    requires n <= |images|
    ensures |ImageParts(images, prefix, g, n)| == n
    ensures forall i :: 0 <= i < n ==>
      ImageParts(images, prefix, g, n)[i] == ImagePart(images[i], FrameClipId(prefix, g, i))
  {
    if n > 0 { ImagePartsAt(images, prefix, g, n - 1); }
  }

  lemma GroupLayout(group: SceneGroup, prefix: string, g: nat, n: nat, m: nat)
    requires n == |group.images| == |ImageParts(group.images, prefix, g, |group.images|)|
    requires m == |group.texts| == |TextParts(group.texts, prefix, g, |group.texts|)|
    ensures var parts := GroupParts(group, prefix, g);
      && |parts| == n + m + 2
      && parts[0] == GroupOpen(group.key, group.visible) && parts[n + m + 1] == GroupClose
      && (forall k :: 1 <= k <= n ==> parts[k] == ImageParts(group.images, prefix, g, n)[k - 1])
      && (forall k :: n < k <= n + m ==> parts[k] == TextParts(group.texts, prefix, g, m)[k - n - 1])
  {
    hide ImageParts, TextParts;
  }

  /** A group is drawn whole: opened, its images in order, its texts in order, closed; only curved texts have a path. */
  lemma GroupDrawnWhole(group: SceneGroup, prefix: string, g: nat)
    ensures var parts, n, m := GroupParts(group, prefix, g), |group.images|, |group.texts|;
      && |parts| == n + m + 2
      && parts[0] == GroupOpen(group.key, group.visible) && parts[n + m + 1] == GroupClose
      && (forall k :: 1 <= k <= n ==>
            && parts[k].Image? && parts[k].image == group.images[k - 1]
            && (parts[k].clip.Some? <==> Framed(parts[k].image)))
      && (forall k :: n < k <= n + m ==>
            && parts[k].Text? && parts[k].text == group.texts[k - n - 1]
            && (parts[k].pathId.Some? <==> parts[k].text.curve != 0.0))
  {
    hide FrameClipId, TextPathId, ImageParts, TextParts, ImagePart, TextPart, Framed, GroupParts;
    var parts, n, m := GroupParts(group, prefix, g), |group.images|, |group.texts|;
    ImagePartsAt(group.images, prefix, g, n);
    TextPaths(group.texts, prefix, g, m);
    GroupLayout(group, prefix, g, n, m);
    forall k | 1 <= k <= n
      ensures parts[k].Image? && parts[k].image == group.images[k - 1]
      ensures parts[k].clip.Some? <==> Framed(parts[k].image)
    {
      ImageDrawn(group.images[k - 1], FrameClipId(prefix, g, k - 1));
    }
    forall k | n < k <= n + m
      ensures parts[k].Text? && parts[k].text == group.texts[k - n - 1]
      ensures parts[k].pathId.Some? <==> parts[k].text.curve != 0.0
    {
      TextDrawn(group.texts[k - n - 1], TextPathId(prefix, g, k - n - 1));
    }
  }

  lemma ImageDrawn(im: SceneImage, id: string)
    ensures var p := ImagePart(im, id); p.Image? && p.image == im && (p.clip.Some? <==> Framed(im))
  {
  }

  lemma TextDrawn(t: SceneText, id: string)
    ensures var p := TextPart(t, id); p.Text? && p.text == t && (p.pathId.Some? <==> t.curve != 0.0)
  {
  }

  // ---------------------------------------------------------------- distinct ids

  predicate Distinct(ids: seq<string>) { forall i, j :: 0 <= i < j < |ids| ==> ids[i] != ids[j] }

  function FrameIds(defs: seq<Definition>): seq<string> {
    seq(|defs|, i requires 0 <= i < |defs| => defs[i].id)
  }

  ghost predicate IsFrameId(id: string, prefix: string, g: nat, n: nat) {
    exists i: nat :: i < n && id == FrameClipId(prefix, g, i)
  }

  lemma FrameClipIdInjective(prefix: string, g: nat, i: nat, g': nat, i': nat)
    requires FrameClipId(prefix, g, i) == FrameClipId(prefix, g', i')
    ensures g == g' && i == i'
  {
    QualifiedIdInjective(StripColons(prefix) + "-dlf", g, i, StripColons(prefix) + "-dlf", g', i');
  }

  lemma DistinctConcat(a: seq<Definition>, b: seq<Definition>)
    requires Distinct(FrameIds(a)) && Distinct(FrameIds(b))
    requires forall d, e :: d in a && e in b ==> d.id != e.id
    ensures Distinct(FrameIds(a + b))
  {
    forall i, j | 0 <= i < j < |a + b| ensures (a + b)[i].id != (a + b)[j].id {
      if j < |a| {
        assert FrameIds(a)[i] != FrameIds(a)[j];
      } else if i >= |a| {
        assert FrameIds(b)[i - |a|] != FrameIds(b)[j - |a|];
      } else {
        assert a[i] in a && b[j - |a|] in b;
      }
    }
  }

  lemma EarlierFrameIdsDiffer(prefix: string, g: nat, n: nat, id: string)
    requires IsFrameId(id, prefix, g, n)
    ensures id != FrameClipId(prefix, g, n) && IsFrameId(id, prefix, g, n + 1)
  {
    var i: nat :| i < n && id == FrameClipId(prefix, g, i);
    if id == FrameClipId(prefix, g, n) { FrameClipIdInjective(prefix, g, i, g, n); }
    hide FrameClipId;
  }

  lemma {:induction false} GroupFrameIds(images: seq<SceneImage>, prefix: string, g: nat, n: nat)
    requires n <= |images|
    ensures forall d :: d in ImageDefinitions(images, prefix, g, n) ==> IsFrameId(d.id, prefix, g, n)
    ensures Distinct(FrameIds(ImageDefinitions(images, prefix, g, n)))
  {
    hide FrameClipId, IsFrameId;
    if n > 0 {
      GroupFrameIds(images, prefix, g, n - 1);
      var before, id := ImageDefinitions(images, prefix, g, n - 1), FrameClipId(prefix, g, n - 1);
      forall d | d in before ensures d.id != id && IsFrameId(d.id, prefix, g, n) {
        EarlierFrameIdsDiffer(prefix, g, n - 1, d.id);
      }
      OwnFrameId(prefix, g, n - 1);
      DistinctConcat(before, ImageDefinition(images[n - 1], id));
    }
  }

  lemma OwnFrameId(prefix: string, g: nat, i: nat)
    ensures IsFrameId(FrameClipId(prefix, g, i), prefix, g, i + 1)
  {
    hide FrameClipId;
  }

  /** A definition of one of the first `n` groups. */
  ghost predicate InGroups(id: string, groups: seq<SceneGroup>, prefix: string, n: nat)
    requires n <= |groups|
  {
    exists g: nat :: g < n && IsFrameId(id, prefix, g, |groups[g].images|)
  }

  lemma GroupsDiffer(groups: seq<SceneGroup>, prefix: string, n: nat, id: string)
    requires n < |groups| && InGroups(id, groups, prefix, n)
    ensures !IsFrameId(id, prefix, n, |groups[n].images|)
  {
    var g: nat :| g < n && IsFrameId(id, prefix, g, |groups[g].images|);
    var i: nat :| i < |groups[g].images| && id == FrameClipId(prefix, g, i);
    forall j: nat ensures id != FrameClipId(prefix, n, j) {
      if id == FrameClipId(prefix, n, j) { FrameClipIdInjective(prefix, g, i, n, j); }
    }
  }

  /** All frame ids of a document are distinct. */
  lemma {:induction false} FrameIdsDistinct(groups: seq<SceneGroup>, prefix: string, n: nat)
    requires n <= |groups|
    ensures forall d :: d in Definitions(groups, prefix, n) ==> InGroups(d.id, groups, prefix, n)
    ensures Distinct(FrameIds(Definitions(groups, prefix, n)))
  {
    if n > 0 {
      var last := groups[n - 1].images;
      var before, added := Definitions(groups, prefix, n - 1), ImageDefinitions(last, prefix, n - 1, |last|);
      FrameIdsDistinct(groups, prefix, n - 1);
      GroupFrameIds(last, prefix, n - 1, |last|);
      forall d | d in before ensures !IsFrameId(d.id, prefix, n - 1, |last|) && InGroups(d.id, groups, prefix, n) {
        GroupsDiffer(groups, prefix, n - 1, d.id);
        var g: nat :| g < n - 1 && IsFrameId(d.id, prefix, g, |groups[g].images|);
      }
      hide IsFrameId, ImageDefinitions;
      DistinctConcat(before, added);
    }
  }

  predicate Curved(p: Part) { p.Text? && p.pathId.Some? }

  /** No two curved texts share a path. */
  ghost predicate PathsDistinct(parts: seq<Part>) {
    forall i, j :: 0 <= i < j < |parts| && Curved(parts[i]) && Curved(parts[j]) ==> parts[i].pathId != parts[j].pathId
  }

  /** Every path of the parts belongs to a text of group `g`. */
  ghost predicate PathsOfGroup(parts: seq<Part>, prefix: string, g: nat) {
    forall p :: p in parts && Curved(p) ==> exists t: nat :: p.pathId.value == TextPathId(prefix, g, t)
  }

  lemma {:induction false} TextPaths(texts: seq<SceneText>, prefix: string, g: nat, n: nat)
    requires n <= |texts|
    ensures |TextParts(texts, prefix, g, n)| == n
    ensures forall t :: 0 <= t < n ==> TextParts(texts, prefix, g, n)[t] == TextPart(texts[t], TextPathId(prefix, g, t))
  {
    if n > 0 { TextPaths(texts, prefix, g, n - 1); }
  }

  lemma {:induction false} ImagesHaveNoPath(images: seq<SceneImage>, prefix: string, g: nat, n: nat)
    requires n <= |images|
    ensures forall p :: p in ImageParts(images, prefix, g, n) ==> !Curved(p)
  {
    if n > 0 { ImagesHaveNoPath(images, prefix, g, n - 1); }
  }

  /** The curved parts of a group are among its texts. */
  lemma CurvedAmongTexts(group: SceneGroup, prefix: string, g: nat)
    requires forall p :: p in ImageParts(group.images, prefix, g, |group.images|) ==> !Curved(p)
    ensures var parts, texts := GroupParts(group, prefix, g), TextParts(group.texts, prefix, g, |group.texts|);
      var first := 1 + |ImageParts(group.images, prefix, g, |group.images|)|;
      forall i :: 0 <= i < |parts| && Curved(parts[i]) ==>
        0 <= i - first < |texts| && parts[i] == texts[i - first]
  {
    var parts, images := GroupParts(group, prefix, g), ImageParts(group.images, prefix, g, |group.images|);
    hide ImageParts, TextParts;
    assert forall i :: 1 <= i <= |images| ==> parts[i] == images[i - 1] && parts[i] in images;
  }

  /** The `i`-th part of a group, if it is curved, has the path of the text it draws. */
  lemma CurvedPath(group: SceneGroup, prefix: string, g: nat, i: nat) returns (t: nat)
    requires i < |GroupParts(group, prefix, g)| && Curved(GroupParts(group, prefix, g)[i])
    ensures i == 1 + |ImageParts(group.images, prefix, g, |group.images|)| + t
    ensures GroupParts(group, prefix, g)[i].pathId.value == TextPathId(prefix, g, t)
  {
    TextPaths(group.texts, prefix, g, |group.texts|);
    ImagesHaveNoPath(group.images, prefix, g, |group.images|);
    CurvedAmongTexts(group, prefix, g);
    hide GroupParts, TextParts, ImageParts, TextPathId;
    t := i - (1 + |ImageParts(group.images, prefix, g, |group.images|)|);
  }

  lemma GroupPathsDistinct(group: SceneGroup, prefix: string, g: nat)
    ensures PathsDistinct(GroupParts(group, prefix, g)) && PathsOfGroup(GroupParts(group, prefix, g), prefix, g)
  {
    hide GroupParts, TextPathId, ImageParts;
    var parts := GroupParts(group, prefix, g);
    forall i: nat, j: nat | i < j < |parts| && Curved(parts[i]) && Curved(parts[j])
      ensures parts[i].pathId != parts[j].pathId
    {
      var t := CurvedPath(group, prefix, g, i);
      var u := CurvedPath(group, prefix, g, j);
      IdsAcrossScenes(prefix, g, t, prefix, g, u);
    }
    forall p | p in parts && Curved(p) ensures exists t: nat :: p.pathId.value == TextPathId(prefix, g, t) {
      var i: nat :| i < |parts| && parts[i] == p;
      var t := CurvedPath(group, prefix, g, i);
    }
  }

  lemma {:induction false} TextPathsDistinct(groups: seq<SceneGroup>, prefix: string, n: nat)
    requires n <= |groups|
    ensures PathsDistinct(Body(groups, prefix, n))
    ensures forall p :: p in Body(groups, prefix, n) && Curved(p) ==>
      exists g: nat, t: nat :: g < n && p.pathId.value == TextPathId(prefix, g, t)
  {
    hide GroupParts, TextPathId;
    if n > 0 {
      TextPathsDistinct(groups, prefix, n - 1);
      GroupPathsDistinct(groups[n - 1], prefix, n - 1);
      var before, added := Body(groups, prefix, n - 1), GroupParts(groups[n - 1], prefix, n - 1);
      forall p, q | p in before && q in added && Curved(p) && Curved(q) ensures p.pathId != q.pathId {
        var g: nat, t: nat :| g < n - 1 && p.pathId.value == TextPathId(prefix, g, t);
        var u: nat :| q.pathId.value == TextPathId(prefix, n - 1, u);
        IdsAcrossScenes(prefix, g, t, prefix, n - 1, u);
      }
      PathsDistinctTogether(before, added);
    }
  }

  lemma PathsDistinctTogether(a: seq<Part>, b: seq<Part>)
    requires PathsDistinct(a) && PathsDistinct(b)
    requires forall p, q :: p in a && q in b && Curved(p) && Curved(q) ==> p.pathId != q.pathId
    ensures PathsDistinct(a + b)
  {
    forall i, j | 0 <= i < j < |a + b| && Curved((a + b)[i]) && Curved((a + b)[j])
      ensures (a + b)[i].pathId != (a + b)[j].pathId
    {
      if i < |a| <= j { assert a[i] in a && b[j - |a|] in b; }
    }
  }

  /** A definition is named by exactly one place in the reference list, and by none but its own. */
  lemma EachReferenceNamesOneDefinition(scene: DesignScene, prefix: string, r: nat)
    requires r < |References(Body(scene.groups, prefix, |scene.groups|))|
    ensures var defs := Definitions(scene.groups, prefix, |scene.groups|);
      && |References(Body(scene.groups, prefix, |scene.groups|))| == |defs|
      && forall d: nat :: d < |defs| ==>
           (References(Body(scene.groups, prefix, |scene.groups|))[r].id == defs[d].id <==> d == r)
  {
    var defs := Definitions(scene.groups, prefix, |scene.groups|);
    ReferencesMatchDefinitions(scene.groups, prefix, |scene.groups|);
    FrameIdsDistinct(scene.groups, prefix, |scene.groups|);
    forall d: nat | d < |defs| && d != r ensures defs[d].id != defs[r].id {
      assert FrameIds(defs)[d] != FrameIds(defs)[r];
    }
  }

  // ---------------------------------------------------------------- escaping

  function ReplaceAll(s: string, c: char, sub: string): string {
    if s == "" then "" else (if s[0] == c then sub else [s[0]]) + ReplaceAll(s[1..], c, sub)
  }

  /** Four replacements, the ampersand first. */
  function EscAttr(value: string): string {
    ReplaceAll(ReplaceAll(ReplaceAll(ReplaceAll(value, '&', "&amp;"), '"', "&quot;"), '<', "&lt;"), '>', "&gt;")
  }

  function Entity(c: char): string {
    if c == '&' then "&amp;" else if c == '"' then "&quot;" else if c == '<' then "&lt;"
    else if c == '>' then "&gt;" else [c]
  }

  /** One pass over the value. */
  function EscapeOnce(value: string): string {
    if value == "" then "" else Entity(value[0]) + EscapeOnce(value[1..])
  }

  predicate StartsWith(s: string, p: string) { |p| <= |s| && s[..|p|] == p }

  /** A reader of attribute values. */
  function Unescape(s: string): string
    decreases |s|
  {
    if s == "" then ""
    else if s[0] != '&' then [s[0]] + Unescape(s[1..])
    else if StartsWith(s, "&amp;") then ['&'] + Unescape(s[5..])
    else if StartsWith(s, "&quot;") then ['"'] + Unescape(s[6..])
    else if StartsWith(s, "&lt;") then ['<'] + Unescape(s[4..])
    else if StartsWith(s, "&gt;") then ['>'] + Unescape(s[4..])
    else [s[0]] + Unescape(s[1..])
  }

  lemma {:induction false} ReplaceConcat(a: string, b: string, c: char, sub: string)
    ensures ReplaceAll(a + b, c, sub) == ReplaceAll(a, c, sub) + ReplaceAll(b, c, sub)
  {
    ReplaceNothing(c, sub);
    hide ReplaceAll;
    if a == "" {
      assert a + b == b;
    } else {
      ReplaceConcat(a[1..], b, c, sub);
      assert (a + b)[1..] == a[1..] + b;
      ReplaceHead(a, c, sub);
      ReplaceHead(a + b, c, sub);
    }
  }

  lemma ReplaceNothing(c: char, sub: string)
    ensures ReplaceAll("", c, sub) == ""
  {
  }

  lemma ReplaceHead(s: string, c: char, sub: string)
    requires s != ""
    ensures ReplaceAll(s, c, sub) == (if s[0] == c then sub else [s[0]]) + ReplaceAll(s[1..], c, sub)
  {
  }

  lemma {:induction false} ReplaceAbsent(s: string, c: char, sub: string)
    requires c !in s
    ensures ReplaceAll(s, c, sub) == s
  {
    if s != "" { ReplaceAbsent(s[1..], c, sub); }
  }

  lemma ReplaceOne(d: char, c: char, sub: string)
    ensures ReplaceAll([d], c, sub) == if d == c then sub else [d]
  {
    assert ReplaceAll([d], c, sub) == (if d == c then sub else [d]) + ReplaceAll("", c, sub);
  }

  /** Each pass replaces its own character and passes the others' entities through. */
  lemma EscAttrChar(c: char)
    ensures EscAttr([c]) == Entity(c)
  {
    hide ReplaceAll;
    ReplaceOne(c, '&', "&amp;");
    ReplaceOne(c, '"', "&quot;");
    ReplaceOne(c, '<', "&lt;");
    ReplaceOne(c, '>', "&gt;");
    var e := Entity(c);
    if c == '&' || c == '"' || c == '<' || c == '>' {
      EntityPlain(c);
      EntityKept(e);
    }
  }

  lemma EntityPlain(c: char)
    requires c == '&' || c == '"' || c == '<' || c == '>'
    ensures forall d :: d in Entity(c) ==> d != '"' && d != '<' && d != '>'
  {
  }

  lemma EntityKept(e: string)
    requires '"' !in e && '<' !in e && '>' !in e
    ensures ReplaceAll(e, '"', "&quot;") == e && ReplaceAll(e, '<', "&lt;") == e && ReplaceAll(e, '>', "&gt;") == e
  {
    ReplaceAbsent(e, '"', "&quot;");
    ReplaceAbsent(e, '<', "&lt;");
    ReplaceAbsent(e, '>', "&gt;");
  }

  /** The four passes do what one pass does: no replacement touches another's output. */
  lemma {:induction false} EscAttrIsOnePass(value: string)
    ensures EscAttr(value) == EscapeOnce(value)
  {
    if value != "" {
      var head, tail := [value[0]], value[1..];
      EscAttrIsOnePass(tail);
      EscAttrChar(value[0]);
      assert value == head + tail;
      ReplaceConcat(head, tail, '&', "&amp;");
      var h1, t1 := ReplaceAll(head, '&', "&amp;"), ReplaceAll(tail, '&', "&amp;");
      ReplaceConcat(h1, t1, '"', "&quot;");
      var h2, t2 := ReplaceAll(h1, '"', "&quot;"), ReplaceAll(t1, '"', "&quot;");
      ReplaceConcat(h2, t2, '<', "&lt;");
      ReplaceConcat(ReplaceAll(h2, '<', "&lt;"), ReplaceAll(t2, '<', "&lt;"), '>', "&gt;");
      hide ReplaceAll;
    }
  }

  /** An entity is told apart by its second character. */
  lemma EntityPrefix(p: string, q: string, rest: string)
    requires |p| >= 2 && |q| >= 2
    ensures StartsWith(p + rest, p) && (p + rest)[|p|..] == rest
    ensures p[1] != q[1] ==> !StartsWith(p + rest, q)
  {
    var s := p + rest;
    assert StartsWith(s, q) ==> s[1] == q[1];
  }

  lemma UnescapeEntity(c: char, rest: string)
    ensures Unescape(Entity(c) + rest) == [c] + Unescape(rest)
  {
    var e := Entity(c);
    if |e| >= 2 {
      EntityPrefix(e, "&amp;", rest);
      EntityPrefix(e, "&quot;", rest);
      EntityPrefix(e, "&lt;", rest);
      EntityPrefix(e, "&gt;", rest);
      assert (e + rest)[0] == '&';
      hide StartsWith;
    } else {
      assert (e + rest)[1..] == rest;
    }
  }

  /** Escaping leaves no quote or angle bracket, and a reader recovers the value. */
  lemma {:induction false} EscAttrRoundTrip(value: string)
    ensures Unescape(EscAttr(value)) == value
    ensures forall c :: c in EscAttr(value) ==> c != '"' && c != '<' && c != '>'
  {
    EscAttrIsOnePass(value);
    EscapeOnceRoundTrip(value);
  }

  lemma EscapedNothing()
    ensures EscapeOnce("") == "" && Unescape("") == ""
  {
  }

  lemma {:induction false} EscapeOnceRoundTrip(value: string)
    ensures Unescape(EscapeOnce(value)) == value
    ensures forall c :: c in EscapeOnce(value) ==> c != '"' && c != '<' && c != '>'
  {
    EscapedNothing();
    hide Unescape;
    if value != "" {
      EscapeOnceRoundTrip(value[1..]);
      UnescapeEntity(value[0], EscapeOnce(value[1..]));
    }
  }
}
