/**
 * BlurNGEffect: the compositor effect's own state (configuration, the
 * frame-scoped damage regions, the per-window blur data with its per-output
 * pyramids) and the operations that update it in place.
 */
module BlurEffect {

  import opened Wrappers
  import opened Geometry
  import opened StrengthCurve
  import opened DamageTracker
  import opened BlurPipeline

  /** Effect::Feature, as far as provides() tells the features apart. */
  datatype Feature = BlurFeature | OtherFeature(code: nat)

  /** The update interval a configured `int` becomes: stored in a `uint`
      (a negative value wraps around), then at least 1. */
  function UpdateInterval(configured: int): (r: nat)
    ensures 1 <= r < UintModulus
    ensures 1 <= configured < UintModulus ==> r == configured
    ensures configured == 0 ==> r == 1
  {
    var u := configured % UintModulus;
    if u < 1 then 1 else u
  }

  class Effect {

    var valid: bool
    var paintedArea: set<Point>
    var currentBlur: set<Point>
    var currentScreen: Option<OutputId>
    var iterationCount: nat
    var offset: int
    var expandSize: int
    var noiseStrength: int
    var blurUpdateInterval: nat
    var blurOffsets: seq<OffsetBand>
    var blurStrengthValues: seq<StrengthEntry>
    var windows: map<WindowId, EffectData>

    /** The effect's invariant: a usable update interval, paired pyramids, and
        once the shaders loaded, the strength tables and a configuration drawn from them. */
    ghost predicate Valid()
      reads this`valid, this`blurUpdateInterval, this`blurOffsets, this`blurStrengthValues,
            this`iterationCount, this`expandSize, this`windows
    {
      SettingsValid() && WindowsValid()
    }

    ghost predicate SettingsValid()
      reads this`valid, this`blurUpdateInterval, this`blurOffsets, this`blurStrengthValues,
            this`iterationCount, this`expandSize
    {
      1 <= blurUpdateInterval < UintModulus
      && (valid ==>
            blurOffsets == DefaultBands && blurStrengthValues == DefaultValues
            && 1 <= iterationCount <= |blurOffsets|
            && expandSize == blurOffsets[iterationCount - 1].expandSize)
    }

    ghost predicate WindowsValid()
      reads this`windows
    {
      forall w :: w in windows ==> DataConsistent(windows[w])
    }

    /** The configuration read by reconfigure, and whether the shaders loaded. */
    ghost function Config(): (bool, nat, int, int, int, nat)
      reads this
    {
      (valid, iterationCount, offset, expandSize, noiseStrength, blurUpdateInterval)
    }

    /** The configuration and the strength tables. */
    ghost function Settings(): ((bool, nat, int, int, int, nat), seq<OffsetBand>, seq<StrengthEntry>)
      reads this
    {
      (Config(), blurOffsets, blurStrengthValues)
    }

    /** The frame-scoped state. */
    ghost function FrameState(): (set<Point>, set<Point>, Option<OutputId>)
      reads this
    {
      (paintedArea, currentBlur, currentScreen)
    }

    /** Construction: when a shader fails to load the effect stays invalid
        (and its configuration unset, here 0); otherwise the strength tables
        are built and the configuration read. The initial pass over the
        stacking order is a sequence of UpdateBlurRegion calls. */
    constructor (shadersLoaded: bool, strength: int, noise: int, interval: int)
      requires 1 <= strength <= NumOfBlurSteps
      ensures Valid()
      ensures valid == shadersLoaded
      ensures windows == map[] && paintedArea == {} && currentBlur == {} && currentScreen == None
      ensures shadersLoaded ==>
                blurOffsets == DefaultBands && blurStrengthValues == DefaultValues
                && iterationCount == SelectedIterations[strength - 1]
                && offset == SelectedOffsets[strength - 1]
                && blurUpdateInterval == UpdateInterval(interval)
      ensures !shadersLoaded ==> blurOffsets == [] && blurStrengthValues == [] && blurUpdateInterval == 1
    {
      valid := false;
      paintedArea := {};
      currentBlur := {};
      currentScreen := None;
      iterationCount := 0;
      offset := 0;
      expandSize := 0;
      noiseStrength := 0;
      blurUpdateInterval := 1;
      blurOffsets := [];
      blurStrengthValues := [];
      windows := map[];
      new;
      if shadersLoaded {
        InitStrengthValues();
        Reconfigure(strength, noise, interval);
        valid := true;
      }
    }

    /** initBlurNGStrengthValues: append the four bands, then spread the
        slider's steps over them. */
    method InitStrengthValues()
      requires blurOffsets == [] && blurStrengthValues == []
      modifies this
      ensures blurOffsets == DefaultBands
      ensures SpanSum(DefaultBands) != 0.0
      ensures blurStrengthValues == StrengthTable(DefaultBands, NumOfBlurSteps) == DefaultValues
      ensures windows == old(windows) && FrameState() == old(FrameState())
      ensures Config() == old(Config())
    {
      blurOffsets := blurOffsets + [OffsetBand(1.0, 2.0, 10)];
      blurOffsets := blurOffsets + [OffsetBand(2.0, 3.0, 20)];
      blurOffsets := blurOffsets + [OffsetBand(2.0, 5.0, 50)];
      blurOffsets := blurOffsets + [OffsetBand(3.0, 8.0, 150)];
      assert blurOffsets == DefaultBands;
      DefaultSpanSum();
      AppendStrengthValues();
      DefaultTableBands();
      BandValues();
    }

    /** The two loops of initBlurNGStrengthValues over whatever bands are
        recorded: sum the spans, then give each band its slots. */
    method AppendStrengthValues()
      requires blurStrengthValues == [] && SpanSum(blurOffsets) != 0.0
      modifies this
      ensures blurOffsets == old(blurOffsets)
      ensures blurStrengthValues == StrengthTable(blurOffsets, NumOfBlurSteps)
      ensures windows == old(windows) && FrameState() == old(FrameState())
      ensures Config() == old(Config())
    {
      var values := SpreadSteps(blurOffsets);
      blurStrengthValues := blurStrengthValues + values;
    }

    /** Both loops on the bands alone: the entries they append. */
    static method SpreadSteps(bands: seq<OffsetBand>) returns (values: seq<StrengthEntry>)
      requires SpanSum(bands) != 0.0
      ensures values == StrengthTable(bands, NumOfBlurSteps)
    {
      var offsetSum := SumSpans(bands);
      ghost var table := Allocate(bands, 0, offsetSum, NumOfBlurSteps, NumOfBlurSteps);
      values := [];
      var remainingSteps := NumOfBlurSteps;
      var i := 0;
      while i < |bands|
        invariant 0 <= i <= |bands|
        invariant values + Allocate(bands, i, offsetSum, NumOfBlurSteps, remainingSteps) == table
      {
        ghost var before, remaining := values, remainingSteps;
        var entries;
        entries, remainingSteps := SpreadBand(bands[i], i, offsetSum, remainingSteps);
        values := values + entries;
        AllocateAppend(before, entries, bands, i, offsetSum, NumOfBlurSteps, remaining);
        i := i + 1;
      }
      assert values + [] == values;
    }

    /** The first loop: the sum of the band spans. */
    static method SumSpans(bands: seq<OffsetBand>) returns (offsetSum: real)
      ensures offsetSum == SpanSum(bands)
    {
      offsetSum := 0.0;
      var i := 0;
      while i < |bands|
        invariant 0 <= i <= |bands|
        invariant offsetSum == SpanSum(bands[..i])
      {
        offsetSum := offsetSum + (bands[i].maxOffset - bands[i].minOffset);
        assert bands[..i + 1][..i] == bands[..i];
        i := i + 1;
      }
      assert bands[..|bands|] == bands;
    }

    /** One round of the second loop: band `b` (number i from 0) asks for its
        share of the steps and gets it, less the overflow once the steps run out. */
    static method SpreadBand(b: OffsetBand, i: nat, offsetSum: real, remainingSteps: int)
      returns (entries: seq<StrengthEntry>, rest: int)
      requires offsetSum != 0.0
      ensures rest == remainingSteps - Wanted(b, offsetSum, NumOfBlurSteps)
      ensures entries == BandEntries(i + 1, b, Granted(Wanted(b, offsetSum, NumOfBlurSteps), remainingSteps))
    {
      var iterationNumber := Ceil((b.maxOffset - b.minOffset) / offsetSum * NumOfBlurSteps as real);
      rest := remainingSteps - iterationNumber;
      if rest < 0 {
        iterationNumber := iterationNumber + rest;
      }
      entries := BandSlots(i + 1, b, iterationNumber);
    }

    /** The inner loop of initBlurNGStrengthValues: the `count` entries of one band. */
    static method BandSlots(iteration: int, b: OffsetBand, count: int) returns (entries: seq<StrengthEntry>)
      ensures entries == BandEntries(iteration, b, count)
    {
      var offsetDifference := b.maxOffset - b.minOffset;
      ghost var all := BandEntries(iteration, b, count);
      entries := [];
      var j := 1;
      while j <= count
        invariant 1 <= j <= (if count > 0 then count + 1 else 1)
        invariant entries == all[..j - 1]
      {
        var entry := StrengthEntry(iteration, b.minOffset + (offsetDifference / count as real) * j as real);
        BandEntryAt(iteration, b, count, j - 1);
        assert entry == all[j - 1];
        assert all[..j] == all[..j - 1] + [entry];
        entries := entries + [entry];
        j := j + 1;
      }
      assert all[..j - 1] == all;
    }

    /** reconfigure: select strength entry `strength - 1` (the configured
        strength is asserted to be in range), store its offset truncated to
        int, take the margin of the selected band, and keep the update interval at least 1. */
    method Reconfigure(strength: int, noise: int, interval: int)
      requires Valid() && blurOffsets == DefaultBands && blurStrengthValues == DefaultValues
      requires 1 <= strength <= |blurStrengthValues|
      modifies this
      ensures valid == old(valid) && blurOffsets == old(blurOffsets) && blurStrengthValues == old(blurStrengthValues)
      ensures Valid()
      ensures iterationCount == blurStrengthValues[strength - 1].iteration == SelectedIterations[strength - 1]
      ensures offset == Trunc(blurStrengthValues[strength - 1].offset) == SelectedOffsets[strength - 1]
      ensures 1 <= iterationCount <= |blurOffsets| && expandSize == blurOffsets[iterationCount - 1].expandSize
      ensures noiseStrength == noise && blurUpdateInterval == UpdateInterval(interval) >= 1
      ensures windows == old(windows) && FrameState() == old(FrameState())
    {
      ValuesSelect(blurStrengthValues);
      var blurStrength := strength - 1;
      iterationCount := blurStrengthValues[blurStrength].iteration;
      offset := Trunc(blurStrengthValues[blurStrength].offset);
      expandSize := blurOffsets[iterationCount - 1].expandSize;
      noiseStrength := noise;
      var u := interval % UintModulus;
      blurUpdateInterval := u;
      if blurUpdateInterval < 1 {
        blurUpdateInterval := 1;
      }
    }

    /** blurRegion: the recorded blur region, empty for a window without data. */
    function BlurRegion(w: WindowId): (r: RectList)
      reads this
      ensures w !in windows ==> r == []
      ensures w in windows ==> r == windows[w].region
    {
      if w in windows then windows[w].region else []
    }

    /** updateBlurRegion: internal windows, and windows whose translucent
        decoration brings its own blur region, are left alone; otherwise the
        registry's answer is recorded (creating the window's data if needed)
        or, without a blur object for the surface, the window's data is dropped. */
    method UpdateBlurRegion(w: Window, lookup: Option<(Option<MaskContent>, RectList)>)
      requires Valid()
      modifies this
      ensures Valid()
      ensures w.internal || (w.decorationHasAlpha && DecorationSupportsBlurBehind(w)) ==> windows == old(windows)
      ensures !w.internal && !(w.decorationHasAlpha && DecorationSupportsBlurBehind(w)) ==>
                if lookup.Some? then
                  var data := if w.id in old(windows) then old(windows)[w.id] else FreshEffectData;
                  windows == old(windows)[w.id := data.(content := lookup.value.0, region := lookup.value.1)]
                else windows == old(windows) - {w.id}
      ensures Settings() == old(Settings()) && FrameState() == old(FrameState())
    {
      if w.internal {
        return;
      }
      if w.decorationHasAlpha && DecorationSupportsBlurBehind(w) {
        return;
      }
      if lookup.Some? {
        var data := if w.id in windows then windows[w.id] else FreshEffectData;
        windows := windows[w.id := data.(content := lookup.value.0, region := lookup.value.1)];
      } else if w.id in windows {
        windows := windows - {w.id};
      }
    }

    /** slotWindowDeleted: drop the window's data and nothing else. */
    method SlotWindowDeleted(w: WindowId)
      requires Valid()
      modifies this
      ensures Valid()
      ensures windows == old(windows) - {w}
      ensures Settings() == old(Settings()) && FrameState() == old(FrameState())
    {
      if w in windows {
        windows := windows - {w};
      }
    }

    /** slotScreenRemoved: drop every window's pyramid for that output, and nothing else. */
    method SlotScreenRemoved(screen: OutputId)
      requires Valid()
      modifies this
      ensures Valid()
      ensures windows == WithoutOutput(old(windows), Some(screen))
      ensures Settings() == old(Settings()) && FrameState() == old(FrameState())
    {
      var keys := windows.Keys;
      ghost var visited: set<WindowId> := {};
      while keys != {}
        invariant keys + visited == old(windows).Keys && keys !! visited
        invariant windows.Keys == old(windows).Keys
        invariant forall w :: w in visited ==>
                    windows[w] == old(windows)[w].(render := old(windows)[w].render - {Some(screen)})
        invariant forall w :: w in keys ==> windows[w] == old(windows)[w]
        invariant Settings() == old(Settings()) && FrameState() == old(FrameState())
        decreases keys
      {
        var w :| w in keys;
        var data := windows[w];
        if Some(screen) in data.render {
          windows := windows[w := data.(render := data.render - {Some(screen)})];
        } else {
          assert data.render - {Some(screen)} == data.render;
        }
        keys := keys - {w};
        visited := visited + {w};
      }
      WithoutOutputConsistent(old(windows), Some(screen));
    }

    /** prePaintScreen: a new frame starts with nothing painted and nothing
        blurred; the output is remembered on Wayland only. */
    method PrePaintScreen(screen: OutputId, wayland: bool)
      requires Valid()
      modifies this
      ensures Valid()
      ensures FrameRegions(paintedArea, currentBlur) == FrameStart
      ensures currentScreen == (if wayland then Some(screen) else None)
      ensures Settings() == old(Settings()) && windows == old(windows)
    {
      paintedArea := {};
      currentBlur := {};
      currentScreen := if wayland then Some(screen) else None;
    }

    /** prePaintWindow, with its loop that shrinks the opaque rectangles. */
    method PrePaintWindow(w: Window, data: PrePaintData) returns (result: PrePaintData)
      requires Valid()
      modifies this
      ensures Valid()
      ensures (FrameRegions(paintedArea, currentBlur), result)
              == DamageTracker.PrePaintWindow(FrameRegions(old(paintedArea), old(currentBlur)), data,
                                              BlurArea(old(BlurRegion(w.id)), w.pos), expandSize)
      ensures Settings() == old(Settings()) && windows == old(windows) && currentScreen == old(currentScreen)
    {
      var region := BlurRegion(w.id);
      var blurArea := BlurArea(region, w.pos);
      var painted, blurred;
      painted, blurred, result := PrePaintRegions(paintedArea, currentBlur, data, blurArea, expandSize);
      ghost var f := DamageTracker.PrePaintWindow(FrameRegions(paintedArea, currentBlur), data, blurArea, expandSize);
      paintedArea, currentBlur := painted, blurred;
      assert f == (FrameRegions(paintedArea, currentBlur), result);
    }

    /** The body of prePaintWindow on the two frame regions. */
    static method PrePaintRegions(paintedArea: set<Point>, currentBlur: set<Point>, data: PrePaintData,
                                  blurArea: set<Point>, expandSize: int)
      returns (painted: set<Point>, blurred: set<Point>, result: PrePaintData)
      ensures (FrameRegions(painted, blurred), result)
              == DamageTracker.PrePaintWindow(FrameRegions(paintedArea, currentBlur), data, blurArea, expandSize)
    {
      var opaqueRects := data.opaqueRects;
      var paint := data.paint;
      var oldOpaque := Cover(opaqueRects);
      blurred := currentBlur;
      if Intersects(oldOpaque, blurred) {
        var newOpaque := ShrinkOpaque(opaqueRects, expandSize);
        opaqueRects := newOpaque;
        blurred := blurred - Cover(newOpaque);
      }
      if Intersects(paint - oldOpaque, blurred) {
        paint := paint + blurred;
      }
      if Intersects(paintedArea, blurArea) || Intersects(paint, blurArea) {
        paint := paint + blurArea;
        if Intersects(blurArea, blurred) {
          paint := paint + blurred;
        }
      }
      blurred := blurred + blurArea;
      painted := paintedArea - Cover(opaqueRects);
      painted := painted + paint;
      result := PrePaintData(opaqueRects, paint);
    }

    /** The loop of prePaintWindow that shrinks every opaque rectangle by the
        blur margin and keeps the ones that do not vanish. */
    static method ShrinkOpaque(opaqueRects: RectList, d: int) returns (newOpaque: RectList)
      ensures newOpaque == ShrunkOpaque(opaqueRects, d)
    {
      newOpaque := [];
      var i := 0;
      while i < |opaqueRects|
        invariant 0 <= i <= |opaqueRects|
        invariant newOpaque == ShrunkOpaque(opaqueRects[..i], d)
      {
        var shrunk := opaqueRects[i].Adjusted(d, d, -d, -d);
        assert opaqueRects[..i + 1][..i] == opaqueRects[..i];
        if !shrunk.IsEmpty() {
          newOpaque := newOpaque + [shrunk];
        }
        i := i + 1;
      }
      assert opaqueRects[..|opaqueRects|] == opaqueRects;
    }

    /** The bookkeeping of blur(): a window without data or without a mask is
        not blurred and nothing changes; otherwise the window's data becomes
        what BlurEntry says, for the current output. */
    method Blur(call: BlurInputs) returns (outcome: BlurOutcome)
      requires Valid() && valid
      modifies this
      ensures Settings() == old(Settings()) && FrameState() == old(FrameState())
      ensures Valid()
      ensures call.window.id !in old(windows) || old(windows)[call.window.id].content.None? ==>
                outcome == Skipped && windows == old(windows)
      ensures call.window.id in old(windows) && old(windows)[call.window.id].content.Some? ==>
                var r := BlurEntry(old(windows)[call.window.id], currentScreen, iterationCount, blurUpdateInterval, call);
                windows == old(windows)[call.window.id := r.0] && outcome == r.1
    {
      var id := call.window.id;
      if id !in windows || windows[id].content.None? {
        return Skipped;
      }
      var d;
      BlurEntryFrame(windows[id], currentScreen, iterationCount, blurUpdateInterval, call);
      d, outcome := BlurWindow(windows[id], currentScreen, iterationCount, blurUpdateInterval, call);
      windows := windows[id := d];
    }

    /** blur() on one window's data: the pyramid entry for the output is
        looked up (and so created), a window that is not to be blurred or
        whose blur shape is clipped away ends there, the rest is Capture. */
    static method BlurWindow(d: EffectData, screen: Option<OutputId>, iterations: nat, interval: nat, call: BlurInputs)
      returns (r: EffectData, outcome: BlurOutcome)
      requires iterations >= 1 && 1 <= interval < UintModulus && DataConsistent(d)
      ensures (r, outcome) == BlurEntry(d, screen, iterations, interval, call)
    {
      BlurEntryCases(d, screen, iterations, interval, call);
      var rd := if screen in d.render then d.render[screen] else EmptyRender;
      r := d.(render := d.render[screen := rd]);
      assert r == WithRenderEntry(d, screen);
      if !ShouldBlur(call.window, call.fullScreenEffect, call.transform, call.transformedMask) {
        return r, Skipped;
      }
      var shape := BlurShape(d.region, call.window.pos, call.transform, call.scaledShape);
      var bg := Bounding(shape);
      var eff := EffectiveShape(call.clip, shape, Point(bg.left, bg.top));
      assert bg == BackgroundRect(d, call) && |eff| == EffectiveRects(d, call);
      if eff == [] {
        return r, Clipped;
      }
      r, outcome := CaptureWindow(r, screen, bg, |eff|, iterations, interval, call);
    }

    /** blur() from the recapture rule on, once the output's pyramid entry
        exists: recapture, the frame counter, then the rebuild and the draw. */
    static method CaptureWindow(d: EffectData, screen: Option<OutputId>, bg: Rect, shapeRects: nat, iterations: nat,
                                interval: nat, call: BlurInputs) returns (r: EffectData, outcome: BlurOutcome)
      requires iterations >= 1 && 1 <= interval < UintModulus && DataConsistent(d) && screen in d.render
      ensures (r, outcome) == Capture(d, screen, bg, shapeRects, iterations, interval, call)
    {
      r := d;
      var recapture := false;
      if r.frameIndex == 0 || r.lastBackgroundRect != bg {
        recapture := true;
        r := r.(lastBackgroundRect := bg);
      }
      r := r.(frameIndex := ((r.frameIndex + 1) % UintModulus) % interval);
      r, outcome := ReallocateWindow(r, screen, bg, recapture, shapeRects, iterations, call);
    }

    /** The rest of blur(): a pyramid that no longer fits is rebuilt (and
        the background then captured), a failed allocation or an unmappable
        vertex buffer ends the call, otherwise the passes are scheduled. */
    static method ReallocateWindow(d: EffectData, screen: Option<OutputId>, bg: Rect, recapture: bool, shapeRects: nat,
                                   iterations: nat, call: BlurInputs) returns (r: EffectData, outcome: BlurOutcome)
      requires iterations >= 1 && DataConsistent(d) && screen in d.render
      ensures (r, outcome) == Reallocate(d, screen, bg, recapture, shapeRects, iterations, call)
    {
      r := d;
      var rd := d.render[screen];
      var redraw := recapture;
      var format := if call.targetFormat.Some? then call.targetFormat.value else Rgba8;
      if NeedsReallocation(rd, iterations, bg.Dimensions(), format) {
        var built, failure := AllocatePyramid(format, bg.Dimensions(), iterations,
                                              call.textureAllocates, call.framebufferValid);
        RebuiltShape(format, bg.Dimensions(), iterations, call.textureAllocates, call.framebufferValid);
        r := r.(render := r.render[screen := built]);
        if failure.Some? {
          return r, AllocationFailed(failure.value);
        }
        redraw := true;
        rd := built;
      }
      if !call.vertexBufferMaps {
        return r, MapFailed;
      }
      var passes, stack := PassSchedule(|rd.framebuffers|, redraw);
      outcome := Drawn(redraw, passes, 6 + 6 * shapeRects);
    }

    /** isActive: exactly an effect whose shaders loaded, on an unlocked
        screen, with at least one window that has blur data. */
    predicate IsActive(screenLocked: bool)
      reads this
      ensures IsActive(screenLocked) <==> valid && !screenLocked && exists w :: w in windows
    {
      valid && !screenLocked && |windows| > 0
    }

    /** provides: the blur feature is provided; any other defers to the base effect. */
    function Provides(feature: Feature, baseProvides: bool): (r: bool)
      ensures feature == BlurFeature ==> r
      ensures feature != BlurFeature ==> r == baseProvides
    {
      if feature == BlurFeature then true else baseProvides
    }

    /** requestedEffectChainPosition */
    function RequestedEffectChainPosition(): (r: int)
      ensures r == 20
    {
      20
    }
  }

  /** Every window's data with one output's pyramid removed. */
  function WithoutOutput(ws: map<WindowId, EffectData>, screen: Option<OutputId>): map<WindowId, EffectData>
  {
    map w | w in ws :: ws[w].(render := ws[w].render - {screen})
  }

  /** Removing an output keeps every window, keeps each window's other
      outputs' pyramids as they were, and keeps every pyramid paired. */
  lemma WithoutOutputConsistent(ws: map<WindowId, EffectData>, screen: Option<OutputId>)
    requires forall w :: w in ws ==> DataConsistent(ws[w])
    ensures WithoutOutput(ws, screen).Keys == ws.Keys
    ensures forall w :: w in ws ==> DataConsistent(WithoutOutput(ws, screen)[w])
    ensures forall w, k :: w in ws && k in ws[w].render && k != screen ==>
              k in WithoutOutput(ws, screen)[w].render && WithoutOutput(ws, screen)[w].render[k] == ws[w].render[k]
    ensures forall w :: w in ws ==> screen !in WithoutOutput(ws, screen)[w].render
  {
  }
}
