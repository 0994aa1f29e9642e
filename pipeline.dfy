/**
 * The bookkeeping of one blur() call, on values: which windows are blurred,
 * the blur shape and the part of it that is actually painted, the rule that
 * decides when the background is captured again, the per-output pyramid of
 * offscreen textures and framebuffers, and the order of the render passes
 * over its levels. Textures and framebuffers are tokens carrying only their
 * format and size.
 */
module BlurPipeline {

  import opened Wrappers
  import opened Geometry

  type WindowId = nat
  type OutputId = nat

  /** The range of `uint`. */
  const UintModulus: nat := 0x1_0000_0000

  /** GL_RGBA8, the texture format used when the render target has none. */
  const Rgba8: int := 0x8058

  /** What the effect asks of an EffectWindow. */
  datatype Window = Window(
    id: WindowId,
    pos: Point,                           // w->pos().toPoint(), the position rounded to integers
    isDesktop: bool,
    forceBlur: bool,                      // WindowForceBlurRole
    internal: bool,                       // w->internalWindow() != nullptr
    decorationHasAlpha: bool,
    decorationBlurRegion: Option<seq<Rect>>) // None when there is no decoration

  /** decorationSupportsBlurNGBehind: a decoration with a non-empty blur region. */
  predicate DecorationSupportsBlurBehind(w: Window) {
    w.decorationBlurRegion.Some? && Cover(w.decorationBlurRegion.value) != {}
  }

  /** The scale and translation a WindowPaintData applies. */
  datatype PaintTransform = PaintTransform(xScale: real, yScale: real, xTranslation: real, yTranslation: real)

  /** shouldBlur: the desktop is never blurred; other windows are blurred when
      they are forced to be, or when no full-screen effect runs and the window
      is neither scaled in both directions, nor translated, nor painted
      transformed. */
  function ShouldBlur(w: Window, fullScreenEffect: bool, t: PaintTransform, transformedMask: bool): (r: bool)
    ensures w.isDesktop ==> !r
    ensures !w.isDesktop && w.forceBlur ==> r
    // an unforced window is blurred exactly when nothing else owns the screen
    // and it is neither scaled on both axes, nor translated, nor transformed
    ensures !w.isDesktop && !w.forceBlur ==>
              (r <==> !fullScreenEffect && !(t.xScale != 1.0 && t.yScale != 1.0)
                      && t.xTranslation == 0.0 && t.yTranslation == 0.0 && !transformedMask)
    ensures !w.isDesktop && !fullScreenEffect && t == PaintTransform(1.0, 1.0, 0.0, 0.0) && !transformedMask ==> r
  {
    if fullScreenEffect && !w.forceBlur then false
    else if w.isDesktop then false
    else
      var scaled := t.xScale != 1.0 && t.yScale != 1.0;
      var translated := t.xTranslation != 0.0 || t.yTranslation != 0.0;
      !((scaled || translated || transformedMask) && !w.forceBlur)
  }

  /** Scaling on one axis only does not stop the blur, scaling on both does. */
  lemma ScaledOnOneAxisIsBlurred(w: Window)
    requires !w.isDesktop && !w.forceBlur
    ensures ShouldBlur(w, false, PaintTransform(2.0, 1.0, 0.0, 0.0), false)
    ensures ShouldBlur(w, false, PaintTransform(1.0, 0.5, 0.0, 0.0), false)
    ensures !ShouldBlur(w, false, PaintTransform(2.0, 2.0, 0.0, 0.0), false)
  {
  }

  /** std::round (and qRound): the nearest integer, halves away from zero. */
  function RoundHalfAway(x: real): (r: int)
    ensures x >= 0.0 ==> r >= 0 && r as real - 0.5 <= x < r as real + 0.5
    ensures x < 0.0 ==> r <= 0 && r as real - 0.5 < x <= r as real + 0.5
  {
    if x >= 0.0 then (x + 0.5).Floor else -((-x + 0.5).Floor)
  }

  /** Rounding never reverses the order of two non-negative values. */
  lemma RoundMonotone(a: real, b: real)
    requires 0.0 <= a <= b
    ensures RoundHalfAway(a) <= RoundHalfAway(b)
  {
    assert (a + 0.5).Floor as real <= a + 0.5 <= b + 0.5 < (b + 0.5).Floor as real + 1.0;
  }

  /** The blur shape: the window's blur region at the window position; under a
      scale the remapped shape (computed in floating point) is used instead,
      under a pure translation the shape moves by the rounded translation. */
  function BlurShape(region: RectList, pos: Point, t: PaintTransform, scaledShape: RectList): (r: RectList)
    ensures t.xScale == 1.0 && t.yScale == 1.0 ==>
              |r| == |region|
              && forall i :: 0 <= i < |region| ==>
                   r[i] == region[i].Translated(pos.x + RoundHalfAway(t.xTranslation), pos.y + RoundHalfAway(t.yTranslation))
  {
    var shape := TranslatedAll(region, pos.x, pos.y);
    if t.xScale != 1.0 || t.yScale != 1.0 then scaledShape
    else if t.xTranslation != 0.0 || t.yTranslation != 0.0 then
      TranslatedAll(shape, RoundHalfAway(t.xTranslation), RoundHalfAway(t.yTranslation))
    else shape
  }

  /** The region blur() is asked to paint. */
  datatype Clip = Infinite | Finite(rects: RectList)

  /** The non-empty intersections of one clip rectangle with the shape's rectangles, in shape order. */
  function Meets(c: Rect, shape: seq<Rect>): RectList
    decreases |shape|
  {
    if shape == [] then []
    else
      var front, x := Meets(c, shape[..|shape| - 1]), c.Intersected(shape[|shape| - 1]);
      if x.IsEmpty() then front else front + [x]
  }

  /** All non-empty intersections, clip rectangle by clip rectangle. */
  function AllMeets(cs: seq<Rect>, shape: seq<Rect>): RectList
    decreases |cs|
  {
    if cs == [] then [] else AllMeets(cs[..|cs| - 1], shape) + Meets(cs[|cs| - 1], shape)
  }

  lemma {:induction false} MeetsCover(c: Rect, shape: seq<Rect>)
    ensures Cover(Meets(c, shape)) == Points(c) * Cover(shape)
    decreases |shape|
  {
    if shape != [] {
      var front, last := shape[..|shape| - 1], shape[|shape| - 1];
      var x := c.Intersected(last);
      MeetsCover(c, front);
      IntersectedPoints(c, last);
      EmptyRectHasNoPoints(x);
      if !x.IsEmpty() {
        CoverAppend(Meets(c, front), x);
      }
    }
  }

  lemma {:induction false} AllMeetsCover(cs: seq<Rect>, shape: seq<Rect>)
    ensures Cover(AllMeets(cs, shape)) == Cover(cs) * Cover(shape)
    decreases |cs|
  {
    if cs != [] {
      var front, last := cs[..|cs| - 1], cs[|cs| - 1];
      AllMeetsCover(front, shape);
      MeetsCover(last, shape);
      CoverConcat(AllMeets(front, shape), Meets(last, shape));
    }
  }

  /** The effective shape, in coordinates relative to the background
      rectangle's top-left corner `origin`. */
  function EffectiveShapeOf(clip: Clip, shape: RectList, origin: Point): RectList
  {
    var local := TranslatedAll(shape, -origin.x, -origin.y);
    match clip
    case Infinite => local
    case Finite(cs) => AllMeets(TranslatedAll(cs, -origin.x, -origin.y), local)
  }

  /** The effective shape covers exactly the part of the blur shape inside the
      painted region, so it is empty exactly when nothing of the shape is painted. */
  lemma EffectiveShapeCover(clip: Clip, shape: RectList, origin: Point)
    ensures clip.Infinite? ==>
              Cover(EffectiveShapeOf(clip, shape, origin)) == Cover(TranslatedAll(shape, -origin.x, -origin.y))
    ensures clip.Finite? ==>
              Cover(EffectiveShapeOf(clip, shape, origin))
                == Cover(TranslatedAll(clip.rects, -origin.x, -origin.y)) * Cover(TranslatedAll(shape, -origin.x, -origin.y))
    ensures clip.Infinite? ==> (EffectiveShapeOf(clip, shape, origin) == [] <==> shape == [])
  {
    if clip.Finite? {
      AllMeetsCover(TranslatedAll(clip.rects, -origin.x, -origin.y), TranslatedAll(shape, -origin.x, -origin.y));
    }
  }

  /** The inner loop of the effective shape: one clip rectangle against every shape rectangle. */
  method ClipAgainstShape(c: Rect, shape: RectList, origin: Point) returns (row: RectList)
    ensures row == Meets(c, TranslatedAll(shape, -origin.x, -origin.y))
  {
    ghost var local := TranslatedAll(shape, -origin.x, -origin.y);
    row := [];
    var j := 0;
    while j < |shape|
      invariant 0 <= j <= |shape|
      invariant row == Meets(c, local[..j])
    {
      var x := c.Intersected(shape[j].Translated(-origin.x, -origin.y));
      assert local[..j + 1][..j] == local[..j];
      if !x.IsEmpty() {
        row := row + [x];
      }
      j := j + 1;
    }
    assert local[..|shape|] == local;
  }

  /** The effective shape of blur(): the shape itself, or its meets with
      every clip rectangle, computed with two nested loops. */
  method EffectiveShape(clip: Clip, shape: RectList, origin: Point) returns (eff: RectList)
    ensures eff == EffectiveShapeOf(clip, shape, origin)
  {
    if clip.Infinite? {
      eff := MoveShape(shape, origin);
    } else {
      eff := ClipShape(clip.rects, shape, origin);
    }
  }

  /** The unclipped case: every shape rectangle moved to be relative to `origin`. */
  method MoveShape(shape: RectList, origin: Point) returns (eff: RectList)
    ensures eff == TranslatedAll(shape, -origin.x, -origin.y)
  {
    ghost var local := TranslatedAll(shape, -origin.x, -origin.y);
    eff := [];
    var k := 0;
    while k < |shape|
      invariant 0 <= k <= |shape|
      invariant eff == local[..k]
    {
      eff := eff + [shape[k].Translated(-origin.x, -origin.y)];
      k := k + 1;
    }
    assert local[..|shape|] == local;
  }

  /** The outer loop of the clipped case: one row of meets per clip rectangle. */
  method ClipShape(cs: seq<Rect>, shape: RectList, origin: Point) returns (eff: RectList)
    ensures eff == AllMeets(TranslatedAll(cs, -origin.x, -origin.y), TranslatedAll(shape, -origin.x, -origin.y))
  {
    ghost var local := TranslatedAll(shape, -origin.x, -origin.y);
    ghost var clipLocal := TranslatedAll(cs, -origin.x, -origin.y);
    eff := [];
    var i := 0;
    while i < |cs|
      invariant 0 <= i <= |cs|
      invariant eff == AllMeets(clipLocal[..i], local)
    {
      var row := ClipAgainstShape(cs[i].Translated(-origin.x, -origin.y), shape, origin);
      ghost var prefix := clipLocal[..i + 1];
      assert prefix[..i] == clipLocal[..i] && prefix[i] == cs[i].Translated(-origin.x, -origin.y);
      assert AllMeets(prefix, local) == AllMeets(clipLocal[..i], local) + row;
      eff := eff + row;
      i := i + 1;
    }
    assert clipLocal[..|cs|] == clipLocal;
  }

  /** A texture token: only its format and size matter here. */
  datatype Texture = Texture(format: int, size: Size)

  /** A framebuffer token: the texture it renders into. */
  datatype Framebuffer = Framebuffer(attachment: Texture)

  /** BlurNGRenderData: level 0 holds the captured background, level i the
      background scaled down i times. */
  datatype RenderData = RenderData(textures: seq<Texture>, framebuffers: seq<Framebuffer>)

  const EmptyRender := RenderData([], [])

  /** Textures and framebuffers are pushed in pairs, framebuffer i rendering into texture i. */
  predicate RenderConsistent(rd: RenderData) {
    |rd.textures| == |rd.framebuffers|
    && forall i :: 0 <= i < |rd.framebuffers| ==> rd.framebuffers[i].attachment == rd.textures[i]
  }

  function Pow2(i: nat): (r: nat)
    ensures r >= 1
  {
    if i == 0 then 1 else 2 * Pow2(i - 1)
  }

  /** The size of level i: the background size divided by 2^i, each
      dimension rounded (QSize divided by a real rounds). */
  function LevelSize(s: Size, i: nat): (r: Size)
    ensures i == 0 ==> r == s
  {
    Size(RoundHalfAway(s.width as real / Pow2(i) as real), RoundHalfAway(s.height as real / Pow2(i) as real))
  }

  /** Each level of a pyramid over a non-empty-or-null background is no
      larger than the one above it, and never negative. */
  lemma LevelSizeShrinks(s: Size, i: nat)
    requires s.width >= 0 && s.height >= 0
    ensures 0 <= LevelSize(s, i + 1).width <= LevelSize(s, i).width
    ensures 0 <= LevelSize(s, i + 1).height <= LevelSize(s, i).height
  {
    var p, q := Pow2(i) as real, Pow2(i + 1) as real;
    assert q == 2.0 * p;
    DivideShrinks(s.width as real, p);
    DivideShrinks(s.height as real, p);
    RoundMonotone(s.width as real / q, s.width as real / p);
    RoundMonotone(s.height as real / q, s.height as real / p);
  }

  lemma DivideShrinks(x: real, p: real)
    requires x >= 0.0 && p >= 1.0
    ensures 0.0 <= x / (2.0 * p) <= x / p
  {
    assert x / (2.0 * p) == (x / p) / 2.0;
  }

  /** The whole pyramid for a background of size `bg`: levels 0..iterations. */
  function PyramidTextures(format: int, bg: Size, iterations: nat): seq<Texture>
  {
    seq(iterations + 1, i requires 0 <= i <= iterations => Texture(format, LevelSize(bg, i)))
  }

  function FramebuffersFor(ts: seq<Texture>): seq<Framebuffer>
  {
    seq(|ts|, i requires 0 <= i < |ts| => Framebuffer(ts[i]))
  }

  /** The pyramid has to be rebuilt when it has the wrong number of levels, or
      level 0 has the wrong size or format (level 0 is only looked at when the
      level count is right). */
  predicate NeedsReallocation(rd: RenderData, iterations: nat, bg: Size, format: int)
    requires RenderConsistent(rd)
  {
    |rd.framebuffers| != iterations + 1 || rd.textures[0].size != bg || rd.textures[0].format != format
  }

  /** The first level in from..last whose texture or framebuffer cannot be created. */
  function FirstFailure(ok: nat -> bool, from: nat, last: nat): (r: Option<nat>)
    ensures r.None? ==> forall j :: from <= j <= last ==> ok(j)
    ensures r.Some? ==> from <= r.value <= last && !ok(r.value) && forall j :: from <= j < r.value ==> ok(j)
    decreases last + 1 - from
  {
    if from > last then None
    else if !ok(from) then Some(from)
    else FirstFailure(ok, from + 1, last)
  }

  /** Rebuilding the pyramid: levels are created in order and the first
      failure stops the rebuild, keeping the levels built before it. */
  function Rebuilt(format: int, bg: Size, iterations: nat, textureAllocates: nat -> bool, framebufferValid: nat -> bool)
    : (RenderData, Option<nat>)
  {
    var failure := FirstFailure((i: nat) => textureAllocates(i) && framebufferValid(i), 0, iterations);
    var levels := PyramidTextures(format, bg, iterations);
    var built := if failure.Some? then levels[..failure.value] else levels;
    (RenderData(built, FramebuffersFor(built)), failure)
  }

  /** A rebuild leaves textures and framebuffers paired; a complete one
      holds every level of the right size and format and needs no
      rebuild for the same background, a partial one is rebuilt next time. */
  lemma RebuiltShape(format: int, bg: Size, iterations: nat, textureAllocates: nat -> bool, framebufferValid: nat -> bool)
    ensures RenderConsistent(Rebuilt(format, bg, iterations, textureAllocates, framebufferValid).0)
    ensures var (rd, failure) := Rebuilt(format, bg, iterations, textureAllocates, framebufferValid);
            failure.None? ==>
              |rd.textures| == iterations + 1
              && (forall i :: 0 <= i <= iterations ==> rd.textures[i] == Texture(format, LevelSize(bg, i)))
              && !NeedsReallocation(rd, iterations, bg, format)
    ensures var (rd, failure) := Rebuilt(format, bg, iterations, textureAllocates, framebufferValid);
            failure.Some? ==>
              !(textureAllocates(failure.value) && framebufferValid(failure.value))
              && |rd.textures| == failure.value
              && NeedsReallocation(rd, iterations, bg, format)
  {
  }

  /** The allocation loop of blur(): clear both vectors, then create and
      push level after level, stopping at the first failure. */
  method AllocatePyramid(format: int, bg: Size, iterations: nat, textureAllocates: nat -> bool, framebufferValid: nat -> bool)
    returns (rd: RenderData, failure: Option<nat>)
    ensures (rd, failure) == Rebuilt(format, bg, iterations, textureAllocates, framebufferValid)
  {
    ghost var ok := (i: nat) => textureAllocates(i) && framebufferValid(i);
    ghost var levels := PyramidTextures(format, bg, iterations);
    var textures: seq<Texture> := [];
    var framebuffers: seq<Framebuffer> := [];
    var i: nat := 0;
    while i <= iterations
      invariant i <= iterations + 1
      invariant textures == levels[..i] && framebuffers == FramebuffersFor(textures)
      invariant FirstFailure(ok, 0, iterations) == FirstFailure(ok, i, iterations)
    {
      var texture := Texture(format, LevelSize(bg, i));
      if !textureAllocates(i) {
        rd, failure := RenderData(textures, framebuffers), Some(i);
        return;
      }
      var framebuffer := Framebuffer(texture);
      if !framebufferValid(i) {
        rd, failure := RenderData(textures, framebuffers), Some(i);
        return;
      }
      assert levels[..i + 1] == levels[..i] + [texture];
      textures := textures + [texture];
      framebuffers := framebuffers + [framebuffer];
      i := i + 1;
    }
    assert levels[..iterations + 1] == levels;
    rd, failure := RenderData(textures, framebuffers), None;
  }

  /** Where a pass draws: a pyramid level or the screen. */
  datatype Target = Level(index: nat) | Screen

  datatype PassKind = Downsample | Upsample | FinalUpsample

  /** One render pass: the level it reads and the target it draws into. */
  datatype Pass = Pass(kind: PassKind, read: nat, draw: Target)

  /** The passes of the dual Kawase blur over a pyramid of `levels` levels:
      when the background was captured, downsample level i-1 into i for every
      level, then upsample from the deepest level back to level 1; in every
      case finally upsample level 1 onto the screen. */
  function Schedule(levels: nat, recapture: bool): seq<Pass>
    requires levels >= 2
  {
    (if recapture then DownPasses(levels) + UpPasses(levels) else []) + [Pass(FinalUpsample, 1, Screen)]
  }

  function DownPasses(levels: nat): seq<Pass>
    requires levels >= 2
  {
    seq(levels - 1, k requires 0 <= k < levels - 1 => Pass(Downsample, k, Level(k + 1)))
  }

  function UpPasses(levels: nat): seq<Pass>
    requires levels >= 2
  {
    seq(levels - 2, k requires 0 <= k < levels - 2 => Pass(Upsample, levels - 1 - k, Level(levels - 2 - k)))
  }

  /** The passes form one chain: the first reads the captured background
      (level 0), each pass reads what the one before it drew, and the last
      draws level 1 onto the screen. With no recapture only that last pass runs. */
  lemma {:induction false} ScheduleChain(levels: nat, recapture: bool)
    requires levels >= 2
    ensures var s := Schedule(levels, recapture);
            s[|s| - 1] == Pass(FinalUpsample, 1, Screen)
            && (!recapture ==> s == [Pass(FinalUpsample, 1, Screen)])
            && (recapture ==> |s| == 2 * levels - 2 && s[0].read == 0
                              && forall k :: 1 <= k < |s| ==> s[k - 1].draw == Level(s[k].read))
    ensures recapture ==> forall i :: 1 <= i < levels ==> Schedule(levels, recapture)[i - 1] == Pass(Downsample, i - 1, Level(i))
  {
    var s := Schedule(levels, recapture);
    if recapture {
      var d, u := DownPasses(levels), UpPasses(levels);
      assert s == d + u + [Pass(FinalUpsample, 1, Screen)];
      forall k | 1 <= k < |s| ensures s[k - 1].draw == Level(s[k].read) {
        if k < levels - 1 {
          assert s[k - 1] == d[k - 1] && s[k] == d[k];
        } else if k == levels - 1 {
          assert s[k - 1] == d[levels - 2];
          if levels > 2 {
            assert s[k] == u[0];
          }
        } else if k < 2 * levels - 3 {
          assert s[k - 1] == u[k - levels] && s[k] == u[k - levels + 1];
        } else {
          assert s[k - 1] == u[levels - 3];
        }
      }
      forall i | 1 <= i < levels ensures s[i - 1] == Pass(Downsample, i - 1, Level(i)) {
        assert s[i - 1] == d[i - 1];
      }
    }
  }

  /** The passes as blur() issues them, with the framebuffer stack: a
      downsample pushes the level it draws, an upsample pops one level and
      draws into the one below, and the final pass pops back to the screen. */
  method PassSchedule(levels: nat, recapture: bool) returns (passes: seq<Pass>, stack: seq<Target>)
    requires levels >= 2
    ensures passes == Schedule(levels, recapture)
    ensures stack == [Screen]
  {
    stack := [Screen];
    passes := [];
    if recapture {
      var i := 1;
      while i < levels
        invariant 1 <= i <= levels
        invariant passes == DownPasses(levels)[..i - 1]
        invariant stack == [Screen] + seq(i - 1, k requires 0 <= k < i - 1 => Level(k + 1))
      {
        stack := stack + [Level(i)];
        passes := passes + [Pass(Downsample, i - 1, stack[|stack| - 1])];
        assert DownPasses(levels)[..i] == DownPasses(levels)[..i - 1] + [Pass(Downsample, i - 1, Level(i))];
        i := i + 1;
      }
      assert DownPasses(levels)[..levels - 1] == DownPasses(levels);
      var j := levels - 1;
      while j > 1
        invariant 1 <= j <= levels - 1
        invariant passes == DownPasses(levels) + UpPasses(levels)[..levels - 1 - j]
        invariant stack == [Screen] + seq(j, k requires 0 <= k < j => Level(k + 1))
      {
        stack := stack[..|stack| - 1];
        passes := passes + [Pass(Upsample, j, stack[|stack| - 1])];
        assert UpPasses(levels)[..levels - j] == UpPasses(levels)[..levels - 1 - j] + [Pass(Upsample, j, Level(j - 1))];
        j := j - 1;
      }
      assert UpPasses(levels)[..levels - 2] == UpPasses(levels);
      stack := stack[..|stack| - 1];
    }
    passes := passes + [Pass(FinalUpsample, 1, stack[|stack| - 1])];
  }

  /** A blur mask texture handed over by the mask registry. */
  datatype MaskContent = MaskContent(id: nat)

  /** BlurNGEffectData. */
  datatype EffectData = EffectData(
    content: Option<MaskContent>,
    region: RectList,
    frameIndex: nat,
    lastBackgroundRect: Rect,
    render: map<Option<OutputId>, RenderData>)

  /** A default-constructed BlurNGEffectData. */
  const FreshEffectData := EffectData(None, [], 0, NullRect, map[])

  /** Every cached pyramid is paired up, and the frame index fits a `uint`. */
  predicate DataConsistent(d: EffectData) {
    d.frameIndex < UintModulus && forall k :: k in d.render ==> RenderConsistent(d.render[k])
  }

  /** The background is captured again on the first frame of an update
      interval, or when the background rectangle moved or changed size. */
  predicate RecaptureNeeded(frameIndex: nat, lastBackgroundRect: Rect, bg: Rect) {
    frameIndex == 0 || lastBackgroundRect != bg
  }

  /** The frame counter, advanced as a `uint` modulo the update interval. */
  function NextFrameIndex(frameIndex: nat, interval: nat): (r: nat)
    requires frameIndex < UintModulus && 1 <= interval < UintModulus
    ensures r < interval
    ensures frameIndex + 1 < interval ==> r == frameIndex + 1
    ensures frameIndex + 1 == interval ==> r == 0
  {
    var u := (frameIndex + 1) % UintModulus;
    ModFacts(u, interval);
    u % interval
  }

  lemma ModFacts(a: int, b: int)
    requires 0 <= a && 0 < b
    ensures 0 <= a % b < b
    ensures a < b ==> a % b == a
    ensures a == b ==> a % b == 0
  {
  }

  /** From frame index f the index counts up one per blurred frame and is
      back at 0 after exactly interval - f frames, so the background is
      captured again once every `interval` blurred frames. */
  lemma {:induction false} FrameIndexCycle(f: nat, interval: nat, k: nat)
    requires 1 <= interval < UintModulus && f < interval && k <= interval - f
    ensures Advance(f, interval, k) == if f + k == interval then 0 else f + k
    decreases k
  {
    if k > 0 {
      FrameIndexCycle(f, interval, k - 1);
    }
  }

  /** The frame index after k blurred frames. */
  function Advance(f: nat, interval: nat, k: nat): nat
    requires 1 <= interval < UintModulus && f < interval
    decreases k
  {
    if k == 0 then f else NextFrameIndex(Advance(f, interval, k - 1), interval)
  }

  /** Everything blur() is given besides the effect's own state. */
  datatype BlurInputs = BlurInputs(
    window: Window,
    transform: PaintTransform,
    transformedMask: bool,                // mask & PAINT_WINDOW_TRANSFORMED
    fullScreenEffect: bool,               // a full-screen effect is active
    scaledShape: RectList,                // the blur shape remapped under a scale
    clip: Clip,                           // the region to paint
    targetFormat: Option<int>,            // the render target's texture format, if it has a texture
    textureAllocates: nat -> bool,        // whether the texture of level i can be allocated
    framebufferValid: nat -> bool,        // whether the framebuffer of level i is valid
    vertexBufferMaps: bool)               // whether the streaming vertex buffer can be mapped

  /** How a blur() call ends. */
  datatype BlurOutcome =
    | Skipped                             // the window is not to be blurred
    | Clipped                             // nothing of the blur shape is painted
    | AllocationFailed(level: nat)        // the pyramid could not be rebuilt
    | MapFailed                           // the vertex buffer could not be mapped
    | Drawn(recaptured: bool, passes: seq<Pass>, vertexCount: nat)

  /** The pyramid cached for an output; looking it up creates an empty one. */
  function RenderFor(d: EffectData, screen: Option<OutputId>): RenderData {
    if screen in d.render then d.render[screen] else EmptyRender
  }

  function TextureFormat(targetFormat: Option<int>): int {
    if targetFormat.Some? then targetFormat.value else Rgba8
  }

  /** The background rectangle: the bounding rectangle of the blur shape. */
  function BackgroundRect(d: EffectData, call: BlurInputs): Rect {
    Bounding(BlurShape(d.region, call.window.pos, call.transform, call.scaledShape))
  }

  /** One blur() call for a window with a mask: the window's new data and how the call ended. */
  function BlurEntry(d: EffectData, screen: Option<OutputId>, iterations: nat, interval: nat, call: BlurInputs)
    : (EffectData, BlurOutcome)
    requires iterations >= 1 && 1 <= interval < UintModulus && DataConsistent(d)
  {
    var d1 := WithRenderEntry(d, screen);
    if !ShouldBlur(call.window, call.fullScreenEffect, call.transform, call.transformedMask) then (d1, Skipped)
    else if EffectiveRects(d, call) == 0 then (d1, Clipped)
    else Capture(d1, screen, BackgroundRect(d, call), EffectiveRects(d, call), iterations, interval, call)
  }

  /** The data blur() works on after looking up the output's pyramid. */
  function WithRenderEntry(d: EffectData, screen: Option<OutputId>): (r: EffectData)
    requires DataConsistent(d)
    ensures DataConsistent(r) && screen in r.render
    ensures r == d.(render := d.render[screen := RenderFor(d, screen)])
  {
    d.(render := d.render[screen := RenderFor(d, screen)])
  }

  /** The number of rectangles of the effective blur shape: the blur shape
      clipped to what is painted, relative to the background's corner. */
  function EffectiveRects(d: EffectData, call: BlurInputs): nat {
    var shape := BlurShape(d.region, call.window.pos, call.transform, call.scaledShape);
    var bg := Bounding(shape);
    |EffectiveShapeOf(call.clip, shape, Point(bg.left, bg.top))|
  }

  /** The part of blur() from the recapture rule on, once the output's pyramid entry exists. */
  function Capture(d: EffectData, screen: Option<OutputId>, bg: Rect, shapeRects: nat, iterations: nat, interval: nat,
                   call: BlurInputs): (r: (EffectData, BlurOutcome))
    requires iterations >= 1 && 1 <= interval < UintModulus && DataConsistent(d) && screen in d.render
    ensures r.1.AllocationFailed? || r.1.MapFailed? || r.1.Drawn?
    ensures r.0.content == d.content && r.0.region == d.region
    ensures r.0.frameIndex == NextFrameIndex(d.frameIndex, interval) && r.0.lastBackgroundRect == bg
    ensures screen in r.0.render && r.0.render == d.render[screen := r.0.render[screen]]
  {
    var recapture := RecaptureNeeded(d.frameIndex, d.lastBackgroundRect, bg);
    var d2 := d.(frameIndex := NextFrameIndex(d.frameIndex, interval),
                 lastBackgroundRect := if recapture then bg else d.lastBackgroundRect);
    Reallocate(d2, screen, bg, recapture, shapeRects, iterations, call)
  }

  /** The part of blur() after the frame counter: rebuild the output's
      pyramid when it no longer fits, then draw. */
  function Reallocate(d: EffectData, screen: Option<OutputId>, bg: Rect, recapture: bool, shapeRects: nat,
                      iterations: nat, call: BlurInputs): (r: (EffectData, BlurOutcome))
    requires iterations >= 1 && DataConsistent(d) && screen in d.render
    ensures r.1.AllocationFailed? || r.1.MapFailed? || r.1.Drawn?
    ensures r.0 == d.(render := r.0.render)
    ensures screen in r.0.render && r.0.render == d.render[screen := r.0.render[screen]]
  {
    var rd := d.render[screen];
    var format := TextureFormat(call.targetFormat);
    if NeedsReallocation(rd, iterations, bg.Dimensions(), format) then
      var (built, failure) := Rebuilt(format, bg.Dimensions(), iterations, call.textureAllocates, call.framebufferValid);
      var d3 := d.(render := d.render[screen := built]);
      if failure.Some? then (d3, AllocationFailed(failure.value))
      else Draw(d3, true, iterations + 1, shapeRects, call.vertexBufferMaps)
    else Draw(d, recapture, |rd.framebuffers|, shapeRects, call.vertexBufferMaps)
  }

  /** The drawing part: six vertices for the offscreen passes, six per effective rectangle on screen. */
  function Draw(d: EffectData, recapture: bool, levels: nat, shapeRects: nat, maps: bool): (EffectData, BlurOutcome)
    requires levels >= 2
  {
    if !maps then (d, MapFailed) else (d, Drawn(recapture, Schedule(levels, recapture), 6 + 6 * shapeRects))
  }

  /** The rebuild-and-draw step: the output's pyramid stays paired; a drawn
      frame recaptures when it was asked to or the pyramid was rebuilt, leaves
      a pyramid that fits, and runs the blur schedule over it; a failed
      rebuild leaves a pyramid that is rebuilt next time. */
  lemma ReallocateFacts(d: EffectData, screen: Option<OutputId>, bg: Rect, recapture: bool, shapeRects: nat,
                        iterations: nat, call: BlurInputs)
    requires iterations >= 1 && DataConsistent(d) && screen in d.render
    ensures var (r, outcome) := Reallocate(d, screen, bg, recapture, shapeRects, iterations, call);
            var format := TextureFormat(call.targetFormat);
            var prev := d.render[screen];
            var rd := r.render[screen];
            RenderConsistent(prev) && RenderConsistent(rd)
            && (outcome.Drawn? ==>
                  outcome.recaptured == (recapture || NeedsReallocation(prev, iterations, bg.Dimensions(), format))
                  && |rd.framebuffers| == iterations + 1
                  && !NeedsReallocation(rd, iterations, bg.Dimensions(), format)
                  && outcome.passes == Schedule(iterations + 1, outcome.recaptured)
                  && outcome.vertexCount == 6 + 6 * shapeRects && call.vertexBufferMaps)
            && (outcome.MapFailed? ==> !call.vertexBufferMaps)
            && (outcome.AllocationFailed? ==> NeedsReallocation(rd, iterations, bg.Dimensions(), format))
  {
    var prev := d.render[screen];
    var format := TextureFormat(call.targetFormat);
    assert RenderConsistent(prev);
    if NeedsReallocation(prev, iterations, bg.Dimensions(), format) {
      RebuiltShape(format, bg.Dimensions(), iterations, call.textureAllocates, call.framebufferValid);
    }
  }

  /** Capture in terms of the recapture rule and the rebuild step. */
  lemma CaptureFacts(d: EffectData, screen: Option<OutputId>, bg: Rect, shapeRects: nat, iterations: nat, interval: nat,
                     call: BlurInputs)
    requires iterations >= 1 && 1 <= interval < UintModulus && DataConsistent(d) && screen in d.render
    ensures var (r, outcome) := Capture(d, screen, bg, shapeRects, iterations, interval, call);
            var format := TextureFormat(call.targetFormat);
            var rd := r.render[screen];
            RenderConsistent(rd)
            && (outcome.Drawn? ==>
                  outcome.recaptured == (RecaptureNeeded(d.frameIndex, d.lastBackgroundRect, bg)
                                         || NeedsReallocation(d.render[screen], iterations, bg.Dimensions(), format))
                  && |rd.framebuffers| == iterations + 1
                  && !NeedsReallocation(rd, iterations, bg.Dimensions(), format)
                  && outcome.passes == Schedule(iterations + 1, outcome.recaptured)
                  && outcome.vertexCount == 6 + 6 * shapeRects && call.vertexBufferMaps)
            && (outcome.MapFailed? ==> !call.vertexBufferMaps)
            && (outcome.AllocationFailed? ==> NeedsReallocation(rd, iterations, bg.Dimensions(), format))
  {
    var recapture := RecaptureNeeded(d.frameIndex, d.lastBackgroundRect, bg);
    var d2 := d.(frameIndex := NextFrameIndex(d.frameIndex, interval),
                 lastBackgroundRect := if recapture then bg else d.lastBackgroundRect);
    assert DataConsistent(d2);
    assert Capture(d, screen, bg, shapeRects, iterations, interval, call)
        == Reallocate(d2, screen, bg, recapture, shapeRects, iterations, call);
    ReallocateFacts(d2, screen, bg, recapture, shapeRects, iterations, call);
  }

  /** blur() either leaves early, having only looked up the pyramid, or is Capture. */
  lemma BlurEntryCases(d: EffectData, screen: Option<OutputId>, iterations: nat, interval: nat, call: BlurInputs)
    requires iterations >= 1 && 1 <= interval < UintModulus && DataConsistent(d)
    ensures var r := BlurEntry(d, screen, iterations, interval, call);
            var d1 := WithRenderEntry(d, screen);
            (r.1.Skipped? <==> !ShouldBlur(call.window, call.fullScreenEffect, call.transform, call.transformedMask))
            && (r.1.Skipped? || r.1.Clipped? ==> r.0 == d1)
            && (!(r.1.Skipped? || r.1.Clipped?) ==>
                  r == Capture(d1, screen, BackgroundRect(d, call), EffectiveRects(d, call), iterations, interval, call))
  {
    var d1 := WithRenderEntry(d, screen);
    var r := BlurEntry(d, screen, iterations, interval, call);
    if !ShouldBlur(call.window, call.fullScreenEffect, call.transform, call.transformedMask) {
      assert r == (d1, Skipped);
    } else if EffectiveRects(d, call) == 0 {
      assert r == (d1, Clipped);
    } else {
      var bg, n := BackgroundRect(d, call), EffectiveRects(d, call);
      assert r == Capture(d1, screen, bg, n, iterations, interval, call);
      CaptureFacts(d1, screen, bg, n, iterations, interval, call);
    }
  }

  /** blur() keeps the mask and region, creates the output's pyramid entry
      if missing, touches no other output's pyramid, and keeps every pyramid paired up. */
  lemma BlurEntryFrame(d: EffectData, screen: Option<OutputId>, iterations: nat, interval: nat, call: BlurInputs)
    requires iterations >= 1 && 1 <= interval < UintModulus && DataConsistent(d)
    ensures var r := BlurEntry(d, screen, iterations, interval, call).0;
            r.content == d.content && r.region == d.region
            && r.render.Keys == d.render.Keys + {screen}
            && (forall k :: k in d.render && k != screen ==> r.render[k] == d.render[k])
            && DataConsistent(r)
  {
    BlurEntryCases(d, screen, iterations, interval, call);
    var d1 := WithRenderEntry(d, screen);
    var r := BlurEntry(d, screen, iterations, interval, call);
    if !(r.1.Skipped? || r.1.Clipped?) {
      var bg, n := BackgroundRect(d, call), EffectiveRects(d, call);
      assert r == Capture(d1, screen, bg, n, iterations, interval, call);
      CaptureFacts(d1, screen, bg, n, iterations, interval, call);
      assert RenderConsistent(r.0.render[screen]);
    }
  }

  /** A call that leaves before the recapture rule changes nothing but the
      output's (possibly new, empty) pyramid entry. */
  lemma BlurEntryEarlyExit(d: EffectData, screen: Option<OutputId>, iterations: nat, interval: nat, call: BlurInputs)
    requires iterations >= 1 && 1 <= interval < UintModulus && DataConsistent(d)
    ensures var (r, outcome) := BlurEntry(d, screen, iterations, interval, call);
            (outcome.Skipped? || outcome.Clipped?) ==> r == d.(render := d.render[screen := RenderFor(d, screen)])
    ensures var (r, outcome) := BlurEntry(d, screen, iterations, interval, call);
            outcome.Skipped? <==> !ShouldBlur(call.window, call.fullScreenEffect, call.transform, call.transformedMask)
  {
    BlurEntryCases(d, screen, iterations, interval, call);
  }

  /** The recapture rule: once the effective shape is non-empty, the frame
      index advances (and stays below the interval), the background
      rectangle is remembered, and a drawn frame recaptures exactly when the
      frame index was 0, the background rectangle changed or the pyramid had to be rebuilt. */
  lemma BlurEntryRecapture(d: EffectData, screen: Option<OutputId>, iterations: nat, interval: nat, call: BlurInputs)
    requires iterations >= 1 && 1 <= interval < UintModulus && DataConsistent(d)
    ensures var (r, outcome) := BlurEntry(d, screen, iterations, interval, call);
            var bg := BackgroundRect(d, call);
            var rd := RenderFor(d, screen);
            !(outcome.Skipped? || outcome.Clipped?) ==>
              r.frameIndex == NextFrameIndex(d.frameIndex, interval) && r.frameIndex < interval
              && r.lastBackgroundRect == bg
              && (outcome.Drawn? ==>
                    (outcome.recaptured <==>
                       d.frameIndex == 0 || d.lastBackgroundRect != bg
                       || NeedsReallocation(rd, iterations, bg.Dimensions(), TextureFormat(call.targetFormat))))
  {
    BlurEntryCases(d, screen, iterations, interval, call);
    var r := BlurEntry(d, screen, iterations, interval, call);
    if !(r.1.Skipped? || r.1.Clipped?) {
      var d1 := WithRenderEntry(d, screen);
      CaptureFacts(d1, screen, BackgroundRect(d, call), EffectiveRects(d, call), iterations, interval, call);
    }
  }

  /** A drawn frame leaves a pyramid that fits the background, with
      iterations + 1 levels, and its passes are the blur schedule over them;
      a failed rebuild leaves a pyramid that is rebuilt on the next call. */
  lemma BlurEntryPyramid(d: EffectData, screen: Option<OutputId>, iterations: nat, interval: nat, call: BlurInputs)
    requires iterations >= 1 && 1 <= interval < UintModulus && DataConsistent(d)
    ensures var (r, outcome) := BlurEntry(d, screen, iterations, interval, call);
            var bg := BackgroundRect(d, call);
            var format := TextureFormat(call.targetFormat);
            screen in r.render
            && var rd := r.render[screen];
            RenderConsistent(rd)
            && (outcome.Drawn? ==>
                  |rd.framebuffers| == iterations + 1
                  && !NeedsReallocation(rd, iterations, bg.Dimensions(), format)
                  && outcome.passes == Schedule(iterations + 1, outcome.recaptured)
                  && outcome.vertexCount == 6 + 6 * EffectiveRects(d, call) && call.vertexBufferMaps)
            && (outcome.MapFailed? ==> !call.vertexBufferMaps)
            && (outcome.AllocationFailed? ==> NeedsReallocation(rd, iterations, bg.Dimensions(), format))
  {
    BlurEntryCases(d, screen, iterations, interval, call);
    var r := BlurEntry(d, screen, iterations, interval, call);
    var d1 := WithRenderEntry(d, screen);
    if !(r.1.Skipped? || r.1.Clipped?) {
      CaptureFacts(d1, screen, BackgroundRect(d, call), EffectiveRects(d, call), iterations, interval, call);
    } else {
      assert RenderConsistent(d1.render[screen]);
    }
  }

  /** A window's first blurred frame always captures its background and runs every pass. */
  lemma FirstFrameCaptures(m: MaskContent, region: RectList, screen: Option<OutputId>, iterations: nat, interval: nat, call: BlurInputs)
    requires iterations >= 1 && 1 <= interval < UintModulus
    ensures var outcome := BlurEntry(FreshEffectData.(content := Some(m), region := region), screen, iterations, interval, call).1;
            outcome.Drawn? ==> outcome.recaptured && outcome.passes == Schedule(iterations + 1, true)
  {
    var d := FreshEffectData.(content := Some(m), region := region);
    assert DataConsistent(d);
    BlurEntryRecapture(d, screen, iterations, interval, call);
    BlurEntryPyramid(d, screen, iterations, interval, call);
  }

  /** A steady frame (same background, pyramid in place, not the first frame
      of the interval) reuses the blurred pyramid: only the final pass runs. */
  lemma SteadyFrameReuses(d: EffectData, screen: Option<OutputId>, iterations: nat, interval: nat, call: BlurInputs)
    requires iterations >= 1 && 1 <= interval < UintModulus && DataConsistent(d)
    requires d.frameIndex != 0 && d.lastBackgroundRect == BackgroundRect(d, call)
    requires screen in d.render
    requires !NeedsReallocation(d.render[screen], iterations, BackgroundRect(d, call).Dimensions(), TextureFormat(call.targetFormat))
    ensures var outcome := BlurEntry(d, screen, iterations, interval, call).1;
            outcome.Drawn? ==> !outcome.recaptured && outcome.passes == [Pass(FinalUpsample, 1, Screen)]
  {
    BlurEntryCases(d, screen, iterations, interval, call);
    var r := BlurEntry(d, screen, iterations, interval, call);
    if r.1.Drawn? {
      var d1 := WithRenderEntry(d, screen);
      var bg, n := BackgroundRect(d, call), EffectiveRects(d, call);
      assert r == Capture(d1, screen, bg, n, iterations, interval, call);
      assert d1.render[screen] == d.render[screen];
      assert !RecaptureNeeded(d1.frameIndex, d1.lastBackgroundRect, bg);
      CaptureFacts(d1, screen, bg, n, iterations, interval, call);
      ScheduleChain(iterations + 1, false);
    }
  }

  /** With an update interval of 1 every drawn frame recaptures. */
  lemma IntervalOneAlwaysCaptures(d: EffectData, screen: Option<OutputId>, iterations: nat, call: BlurInputs)
    requires iterations >= 1 && DataConsistent(d) && d.frameIndex < 1
    ensures var (r, outcome) := BlurEntry(d, screen, iterations, 1, call);
            r.frameIndex == 0 && (outcome.Drawn? ==> outcome.recaptured)
  {
    BlurEntryCases(d, screen, iterations, 1, call);
    BlurEntryRecapture(d, screen, iterations, 1, call);
  }
}
