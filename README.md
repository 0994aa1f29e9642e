# kwin-blur-ng, modelled in Dafny

This project models the bookkeeping core of kwin-blur-ng, a KWin effect
that blurs what lies behind translucent windows. The windows' clients
describe what to blur through the `mbition_blur_v1` Wayland protocol. The
model covers three parts:

- **The effect (`BlurNGEffect`).**
  - The strength table that turns the 15-step strength slider into an
    iteration count and an offset, and `reconfigure`.
  - The per-frame damage bookkeeping of `prePaintScreen` and `prePaintWindow`.
  - The per-window data with its per-output pyramids of offscreen textures
    and framebuffers.
  - The bookkeeping of `blur()`: which windows are blurred, the blur shape
    and its effective part, and the rule that decides when the background is
    captured again. Also the pyramid (re)allocation with its failure path,
    the order of the render passes, and the vertex count.
- **The compositor's mask registry.** It maps each surface to its blur
  object. Each object holds a mask buffer and a texture that is uploaded
  the first time it is needed.
- **The client's state machines.** `BlurMask` turns setter calls into
  protocol requests. `BlurManager` caches one blur surface object per window.

Files and modules:

| file | module | contents |
|---|---|---|
| `wrappers.dfy` | `Wrappers` | `Option` |
| `geometry.dfy` | `Geometry` | QRect as an inclusive integer box; a QRegion as a rectangle list or as a set of points; the bounding rectangle |
| `strength.dfy` | `StrengthCurve` | offset bands, the strength table as a function, facts about the default table |
| `damage.dfy` | `DamageTracker` | prePaintWindow as a function on the two frame regions, and whole frames |
| `pipeline.dfy` | `BlurPipeline` | shouldBlur, the blur and effective shapes, the pyramid, the pass schedule, the frame counter, and blur() on one window's data as a function |
| `effect.dfy` | `BlurEffect` | class `Effect`: the effect's fields and their in-place updates, each method proved against the functions above |
| `blur_interface.dfy` | `BlurInterface` | classes `Manager` (the `m_blurs` registry) and `SurfaceBlur` (one blur object) |
| `blur_client.dfy` | `BlurClient` | classes `BlurMask`, `BlurSurface` and `BlurManager`; requests go into a log on the object that sends them |

Modelling choices:

- **Numbers.**
  - Qt `float` arithmetic on the band values is modelled in `real`. Every
    band value is a small exact rational.
  - `std::ceil` is `Ceil`. The `float` to `int` store of the offset is
    `Trunc`, which truncates toward zero.
  - `uint` arithmetic wraps explicitly: `frameIndex` wraps modulo 2^32, and
    a configured update interval wraps on its way into `uint`.
  - The level size `QSize / qreal` rounds half away from zero (`RoundHalfAway`).
- **Regions and rectangles.**
  - A region whose rectangle order matters is a rectangle list. The opaque
    rectangles that are shrunk one by one, the blur region whose bounding
    rectangle is taken, and the clip and shape loops of blur() are all
    rectangle lists. The other regions are sets of points.
  - Textures, framebuffers, buffers and images are tokens.
- **Inputs.**
  - Whether an allocation, framebuffer, buffer view, upload or vertex buffer
    map succeeds is an input of the call.
  - So is the render target's texture format.
  - So is the shape remapped under a scale, which the source computes in
    floating point.
- **Object lifetime.**
  - A deleted C++ object is modelled by clearing its `alive` flag (compositor
    side) or setting `destroyed` (client side).

## Model

| member | source | states |
|---|---|---|
| Geometry.BoundingCovers | src/blur.cpp:373 | the bounding rectangle of a region holds every point of the region, and it is empty exactly when the region is empty |
| Geometry.BoundingContains | src/blur.cpp:486 | every point of the blur shape lies inside its background rectangle |
| Geometry.IntersectedPoints | src/blur.cpp:500 | the intersection of two rectangles holds exactly the points that lie in both |
| Geometry.EmptyRectHasNoPoints | src/blur.cpp:358 | a rectangle is empty (as one shrunk past its own size is) exactly when it covers no point |
| StrengthCurve.Ceil | src/blur.cpp:178 | the result is the least integer not below the argument |
| StrengthCurve.Trunc | src/blur.cpp:201 | the float-to-int store truncates toward zero, for either sign |
| StrengthCurve.StrengthTable | src/blur.cpp:136-192 | the reference definition of the strength table for any bands: each band, in order, gets ceil(span / total span · 15) evenly spaced offsets above its minimum, cut back once the 15 slots run out; AllocateIterations and BandEntriesShape state its shape |
| StrengthCurve.DefaultTable | src/blur.cpp:136-192 | the table built from the four default bands is exactly the 15 listed entries |
| StrengthCurve.DefaultTableBands | src/blur.cpp:171-191 | the spans sum to 10; the bands ask for ceil(1.5), ceil(1.5), ceil(4.5) and ceil(7.5) slots; the last band loses the overflow of 2 to the negative remainder; so the bands get 2, 2, 5 and 6 slots |
| StrengthCurve.BandEntriesShape | src/blur.cpp:185-190 | within a band every entry carries the band's iteration number; offsets lie above minOffset and strictly increase; the last one equals maxOffset |
| StrengthCurve.AllocateIterations | src/blur.cpp:177-191 | every entry produced from band `from` on carries an iteration between from+1 and the number of bands, and iterations never decrease along the table |
| StrengthCurve.AllocateAppend | src/blur.cpp:177-191 | one round of the band loop appends that band's entries, and the later bands then share the steps left over |
| StrengthCurve.DefaultIterations | src/blur.cpp:177-202 | in the default table iterations never decrease, and each one names an existing band, so `blurOffsets[iteration - 1]` in reconfigure is in range |
| StrengthCurve.BandValues | src/blur.cpp:187-190 | the entries of each default band, written out as exact rationals |
| StrengthCurve.ValuesSelect | src/blur.cpp:198-202 | for all 15 slider steps: the iteration count the step selects, the truncated offset it stores, and that its band exists |
| StrengthCurve.DefaultSelections | src/blur.cpp:198-201 | strengths 1..15 select iterations 1,1,2,2,3,3,3,3,3,4,4,4,4,4,4 with offsets 1,2,2,3,2,3,3,4,5,3,4,5,6,7,8 |
| StrengthCurve.OffsetsDropAtBandStart | src/blur.cpp:164-191 | offsets are not monotone across bands: entry 4 has offset 3.0 and entry 5 has offset 2.6 |
| DamageTracker.ShrunkOpaque | src/blur.cpp:356-360 | the reference definition of the new opaque region: every rectangle moved inwards on all four sides, the empty ones dropped; never more rectangles than before |
| DamageTracker.ShrunkOpaqueMember | src/blur.cpp:356-360 | a point is in the new opaque region exactly when some old opaque rectangle, shrunk by the margin on all four sides, contains it |
| DamageTracker.ShrunkOpaqueInside | src/blur.cpp:356-360 | shrinking by a non-negative margin never adds opaque area |
| DamageTracker.BlurArea | src/blur.cpp:373 | the reference definition of a window's blur area: the bounding rectangle of its blur region moved to the window position; its properties are stated by BlurAreaCovers |
| DamageTracker.BlurAreaCovers | src/blur.cpp:373 | a window's blur area holds its whole blur region at the window position, and it is empty exactly when the region is empty |
| DamageTracker.PrePaintWindow | src/blur.cpp:347-390 | If the opaque region meets the blurred area, each opaque rectangle is shrunk and the blurred area loses exactly the shrunk opaque area; otherwise the opaque region is kept. Afterwards the window's blur area is blurred. `paint` only grows, and only by the remaining blurred area below and the blur area. A translucent part painted over the remaining blurred area repaints all of it. A blur area painted again (by a window underneath, by this window, or by that repaint) is repainted whole, and when it meets the remaining blurred area, all of that is repainted too. Without either reason `paint` is unchanged, and each reason alone adds only its own area. The painted area becomes (painted − opaque') ∪ paint' |
| DamageTracker.RunFrame | src/blur.cpp:338-390 | the reference definition of a frame: prePaintScreen's empty start, then prePaintWindow once per window from bottom to top, giving the final frame regions and one rewritten data per window |
| DamageTracker.FrameBlurBounded | src/blur.cpp:338-390 | at any point of a frame, the blurred area lies within the blur areas of the windows visited so far |
| DamageTracker.FrameWithoutBlur | src/blur.cpp:338-390 | in a frame where no window wants blur, the blurred area stays empty and every window's opaque and paint regions are untouched |
| BlurPipeline.DecorationSupportsBlurBehind | src/blur.cpp:333-336 | the reference rule used by updateBlurRegion: the window has a decoration whose blur region is not empty (QRegion::isNull is emptiness) |
| BlurPipeline.ShouldBlur | src/blur.cpp:392-410 | the desktop is never blurred; a forced window otherwise always is. An unforced window other than the desktop is blurred exactly when no full-screen effect runs and it is not scaled on both axes, not translated and not painted transformed. A window other than the desktop, painted untransformed with no full-screen effect, is blurred |
| BlurPipeline.ScaledOnOneAxisIsBlurred | src/blur.cpp:402-405 | because the scale test needs both axes, an unforced window scaled on one axis only is still blurred, and one scaled on both is not |
| BlurPipeline.RoundHalfAway | src/blur.cpp:483 | std::round: the nearest integer, with halves rounded away from zero |
| BlurPipeline.BlurShape | src/blur.cpp:470-484 | without a scale the blur shape is the blur region moved by the window position plus the rounded paint translation, rectangle by rectangle |
| BlurPipeline.MeetsCover | src/blur.cpp:498-503 | the non-empty intersections of one clip rectangle with the shape cover exactly the clip rectangle ∩ the shape |
| BlurPipeline.AllMeetsCover | src/blur.cpp:495-504 | all the intersections together cover exactly the clip region ∩ the shape |
| BlurPipeline.EffectiveShapeCover | src/blur.cpp:491-512 | the effective shape covers exactly the painted part of the blur shape, relative to the background corner; unclipped, it is empty exactly when the blur shape is |
| BlurPipeline.ClipAgainstShape | src/blur.cpp:498-503 | the inner loop produces the intersections of one clip rectangle with the shape, in shape order |
| BlurPipeline.EffectiveShape | src/blur.cpp:491-509 | the two nested loops compute the effective shape |
| BlurPipeline.MoveShape | src/blur.cpp:505-509 | the unclipped loop moves every shape rectangle to be relative to the background corner |
| BlurPipeline.ClipShape | src/blur.cpp:494-504 | the clipped outer loop appends one row of intersections per clip rectangle |
| BlurPipeline.LevelSizeShrinks | src/blur.cpp:535 | each pyramid level is no larger than the one above it and never negative |
| BlurPipeline.NeedsReallocation | src/blur.cpp:530 | the reference rule for rebuilding the pyramid: the wrong number of levels, or a level 0 whose size or format differs from the background's |
| BlurPipeline.LevelSize | src/blur.cpp:535 | the size of pyramid level i: the background size divided by 2^i, each dimension rounded; level 0 is the background size; its bounds are stated by LevelSizeShrinks |
| BlurPipeline.FirstFailure | src/blur.cpp:534-550 | the level at which a rebuild stops is the first one that fails, and every level before it succeeded |
| BlurPipeline.RebuiltShape | src/blur.cpp:530-553 | after a rebuild, textures and framebuffers are paired. A completed rebuild has level i at the background size / 2^i in the target format, and needs no rebuild for the same background. A failed one keeps only the levels before the failure and is rebuilt on the next call |
| BlurPipeline.AllocatePyramid | src/blur.cpp:530-550 | the allocation loop pushes level after level and stops at the first texture or framebuffer failure |
| BlurPipeline.ScheduleChain | src/blur.cpp:667-752 | the passes form one chain: the first reads the captured background (level 0); each later pass reads what the one before it drew; the last draws level 1 onto the screen. Without a recapture only that final pass runs. Downsample i reads level i−1 and draws level i |
| BlurPipeline.PassSchedule | src/blur.cpp:667-723 | the pass loops and the framebuffer pushes and pops produce the schedule, and they leave only the screen on the framebuffer stack |
| BlurPipeline.RecaptureNeeded | src/blur.cpp:516-519 | the reference rule for capturing the background again: the first frame of an update interval, or a background rectangle that differs from the last one |
| BlurPipeline.NextFrameIndex | src/blur.cpp:521 | the frame index advances by one modulo the update interval, and it always stays below the interval |
| BlurPipeline.FrameIndexCycle | src/blur.cpp:514-521 | counting from index f, the frame index returns to 0 after exactly interval − f blurred frames, so the background is captured again once per interval |
| BlurPipeline.WithRenderEntry | src/blur.cpp:463-464 | looking up the output's pyramid creates an empty one if it is missing and keeps every pyramid paired |
| BlurPipeline.Capture | src/blur.cpp:514-553 | from the recapture rule on: the mask and region are kept, the frame index advances, and the last background rectangle becomes the current one. Only this output's pyramid changes |
| BlurPipeline.Reallocate | src/blur.cpp:523-570 | the rebuild-and-draw step changes nothing but this output's pyramid |
| BlurPipeline.ReallocateFacts | src/blur.cpp:530-570 | a drawn frame recaptures exactly when it was asked to or the pyramid was rebuilt; it leaves iterations+1 levels that fit, runs the schedule over them, and uses 6 + 6·(effective rectangles) vertices. A draw happens only when the vertex buffer maps. A failed allocation leaves a pyramid that will be rebuilt |
| BlurPipeline.CaptureFacts | src/blur.cpp:514-570 | a drawn frame recaptures exactly when the frame index is 0, the background rectangle changed, or the pyramid was rebuilt; it has iterations+1 fitting levels and the matching schedule |
| BlurPipeline.BlurEntry | src/blur.cpp:456-553 | the reference definition of one blur() call for a window with a mask: the output's pyramid is looked up (inserting an empty one), the call is skipped when shouldBlur says no, ends when the effective shape is empty, and otherwise captures and reallocates; BlurEntryCases, BlurEntryFrame, BlurEntryRecapture and BlurEntryPyramid state its outcomes |
| BlurPipeline.BlurEntryCases | src/blur.cpp:456-512 | blur() is skipped exactly when shouldBlur says no, leaves after the lookup when the effective shape is empty, and otherwise continues with the recapture rule |
| BlurPipeline.BlurEntryFrame | src/blur.cpp:456-553 | blur() keeps the mask and region, creates this output's pyramid entry, leaves every other output's pyramid alone and keeps all pyramids paired |
| BlurPipeline.BlurEntryEarlyExit | src/blur.cpp:458-512 | a call that leaves before the recapture rule changes only the (possibly new, empty) pyramid entry |
| BlurPipeline.BlurEntryRecapture | src/blur.cpp:514-553 | past the early exits, the frame index advances and stays below the interval, and the last background rectangle is updated; a drawn frame recaptures exactly by the rule |
| BlurPipeline.BlurEntryPyramid | src/blur.cpp:530-553 | the output's pyramid stays paired. A drawn frame leaves iterations+1 levels that fit the background, runs the schedule, and uses 6 + 6·(effective rectangles) vertices. An unmappable vertex buffer ends the call. A failed allocation leaves a pyramid that is rebuilt next time |
| BlurPipeline.FirstFrameCaptures | src/blur.cpp:514-521 | a fresh window's first drawn frame always captures and runs the full schedule |
| BlurPipeline.SteadyFrameReuses | src/blur.cpp:514-553 | a frame within the interval, with an unchanged background and a fitting pyramid, does not recapture, and only the final upsample runs |
| BlurPipeline.IntervalOneAlwaysCaptures | src/blur.cpp:514-521 | with an update interval of 1, the frame index stays 0 and every drawn frame recaptures |
| BlurEffect.UpdateInterval | src/blur.cpp:204-209 | the configured interval, stored as `uint`, is at least 1; a value already in range is kept, and 0 becomes 1 |
| BlurEffect.Effect.constructor | src/blur.cpp:49-125 | a shader failure leaves the effect invalid, with interval 1 and no tables. Otherwise the effect is valid, with the default bands and table, the configuration drawn from them, and no window data until the pass over the stacking order, modelled as later UpdateBlurRegion calls |
| BlurEffect.Effect.InitStrengthValues | src/blur.cpp:136-192 | appends the four bands and builds the strength table from them, which is the default table |
| BlurEffect.Effect.AppendStrengthValues | src/blur.cpp:171-191 | the two loops append StrengthTable of whatever bands are recorded |
| BlurEffect.Effect.SpreadSteps | src/blur.cpp:171-191 | the loops over the bands produce StrengthTable(bands, 15) |
| BlurEffect.Effect.SumSpans | src/blur.cpp:171-175 | the first loop sums the spans of the bands |
| BlurEffect.Effect.SpreadBand | src/blur.cpp:178-190 | one band asks for ceil(span/sum·15) slots, gets that count less any overflow, and the remainder goes down by the count asked for |
| BlurEffect.Effect.BandSlots | src/blur.cpp:185-190 | the inner loop produces entries j = 1..count at minOffset + span/count·j |
| BlurEffect.Effect.Reconfigure | src/blur.cpp:194-213 | selects entry strength−1. The iteration count is that entry's, and the offset is its value truncated. The expand size is the selected band's margin. The interval is the configured one wrapped to `uint`, and at least 1 |
| BlurEffect.Effect.BlurRegion | src/blur.cpp:215-222 | the recorded blur region, or an empty one for a window without data |
| BlurEffect.Effect.UpdateBlurRegion | src/blur.cpp:224-250 | internal windows, and those whose translucent decoration brings its own blur region, are untouched; the registry's answer is stored (creating the data if needed) or, with no blur object, the window's data is dropped |
| BlurEffect.Effect.SlotWindowDeleted | src/blur.cpp:264-270 | exactly that window's data is removed, nothing else changes |
| BlurEffect.Effect.SlotScreenRemoved | src/blur.cpp:272-280 | every window loses exactly that output's pyramid; nothing else changes |
| BlurEffect.WithoutOutputConsistent | src/blur.cpp:272-280 | removing an output keeps every window and every other output's pyramid, and keeps every pyramid paired |
| BlurEffect.Effect.PrePaintScreen | src/blur.cpp:338-345 | a frame starts with nothing painted and nothing blurred; the output is remembered on Wayland only |
| BlurEffect.Effect.PrePaintWindow | src/blur.cpp:347-390 | the two frame regions and the window's rewritten data are what DamageTracker.PrePaintWindow says, for the window's blur area |
| BlurEffect.Effect.PrePaintRegions | src/blur.cpp:353-389 | the body of prePaintWindow on the two frame regions |
| BlurEffect.Effect.ShrinkOpaque | src/blur.cpp:356-360 | the shrink loop produces the shrunk opaque rectangles, dropping those that vanish |
| BlurEffect.Effect.Blur | src/blur.cpp:456-553 | a window without data or without a mask is ignored. Otherwise its data becomes what BlurPipeline.BlurEntry gives for the current output, and the configuration and frame regions are unchanged |
| BlurEffect.Effect.BlurWindow | src/blur.cpp:463-512 | the lookup, shouldBlur, the blur shape and the effective shape compute BlurEntry |
| BlurEffect.Effect.CaptureWindow | src/blur.cpp:514-521 | the recapture rule and the frame counter compute Capture |
| BlurEffect.Effect.ReallocateWindow | src/blur.cpp:523-570 | the reallocation, its early returns, the vertex buffer check and the passes compute Reallocate |
| BlurEffect.Effect.IsActive | src/blur.cpp:796-799 | active exactly when valid, the screen is unlocked, and some window has data |
| BlurEffect.Effect.Provides | src/blur.h:152-158 | the blur feature is provided; any other feature defers to the base effect |
| BlurEffect.Effect.RequestedEffectChainPosition | src/blur.h:65-68 | the position is 20 |
| BlurInterface.SurfaceBlur.SetMask | src/wayland/blurinterface.cpp:79-84 | the cached texture is dropped, the new buffer is kept, and blurChanged is emitted for the surface |
| BlurInterface.SurfaceBlur.UnsetMask | src/wayland/blurinterface.cpp:86-90 | the buffer and texture are both dropped, and blurChanged is emitted |
| BlurInterface.SurfaceBlur.LoadShmTexture | src/wayland/blurinterface.cpp:53-62 | with no viewable buffer nothing changes and the answer is false. Otherwise the texture becomes a fresh upload of the buffer, or none when the upload fails, and the answer says which |
| BlurInterface.SurfaceBlur.DestroyResource | src/wayland/blurinterface.cpp:152-155 | the object is deleted; its buffer and texture are untouched |
| BlurInterface.Manager.GetBlur | src/wayland/blurinterface.cpp:99-118 | a non-surface is rejected and nothing is registered; a failed resource allocation changes nothing. A surface with a blur object is rejected and keeps its entry. Otherwise a new, empty object is registered under the surface. The lookup inserts an empty entry |
| BlurInterface.Manager.Mask | src/wayland/blurinterface.cpp:130-140 | the lookup inserts an empty entry. No object means no texture. A cached texture is returned as it is; otherwise an upload is attempted first. A deleted object is a use-after-free, which cannot happen while every entry is alive |
| BlurInterface.Manager.DestroySurfaceBlur | src/wayland/blurinterface.cpp:152-155 | corrected destruction: the object is deleted and its entry erased, keeping every entry alive |
| BlurInterface.ReRegisterAfterDestroyAsWritten | src/wayland/blurinterface.cpp:111-115 | as written, after destroy_resource a surface's new get_blur is refused with BLUR_EXISTS and mask() reads the deleted object |
| BlurInterface.ReRegisterAfterDestroyCorrected | src/wayland/blurinterface.cpp:152-155 | with the entry erased, mask() finds nothing and the surface registers again |
| BlurInterface.MaskBeforeRegistration | src/wayland/blurinterface.cpp:130-135 | mask() for an unregistered surface gives null and leaves only an empty entry; the surface can still register once, and a second get_blur is refused |
| BlurInterface.MaskIsCached | src/wayland/blurinterface.cpp:136-139 | the texture is uploaded once, and a second mask() returns the same one even when the buffer can no longer be viewed. After set_mask, an unviewable buffer gives null |
| BlurInterface.InvalidSurfaceRegistersNothing | src/wayland/blurinterface.cpp:101-105 | a get_blur for a non-surface registers nothing |
| BlurClient.BlurMask.constructor | src/client/blurclient.h:104-109 | a new mask has intensity 1, an empty geometry, a null image and no surface; it is dirty, and it has sent nothing |
| BlurClient.BlurMask.SetMask | src/client/blurclient.h:63-70 | an equal image changes nothing; another image is stored and marks the mask dirty; nothing is sent |
| BlurClient.BlurMask.SetIntensity | src/client/blurclient.h:71-74 | the intensity is always stored and the mask marked dirty; nothing is sent |
| BlurClient.BlurMask.SetGeometry | src/client/blurclient.h:75-80 | an equal rectangle sends nothing; another is stored and sent as exactly one set_geometry(x, y, width, height) |
| BlurClient.BlurMask.SetSurface | src/client/blurclient.h:82-94 | the same surface changes nothing; another is stored, and add_mask is sent to it only when it is not null |
| BlurClient.BlurMask.SendMask | src/client/blurclient.h:96 | the image and intensity go out, and no other field changes; whether the mask is dirty afterwards is an input |
| BlurClient.BlurMask.SendDone | src/client/blurclient.h:97-102 | the mask goes out first only when dirty; done always goes out; a clean mask stays clean |
| BlurClient.BlurSurface.Destroy | src/client/blurclient.h:35-38 | deleting the object destroys its protocol object |
| BlurClient.BlurManager.Surface | src/client/blurclient.cpp:24-40 | no window, or no native surface, gives null and changes nothing. A known window gets its cached object back. Otherwise one get_blur creates a new object, which is cached |
| BlurClient.BlurManager.ForgetSurface | src/client/blurclient.cpp:35-37 | the window's entry is taken out and its object destroyed; other entries stay |
| BlurClient.BlurManager.VisibilityChanged | src/client/blurclient.h:27-32 | a window that becomes hidden has its surface object forgotten; any other visibility change does nothing |
| BlurClient.FirstDoneSendsMask | src/client/blurclient.h:71-107 | the first done of a new mask is preceded by the mask, at intensity 1; once the mask is clean a done goes out alone, and setting the intensity makes the next done carry the mask again |
| BlurClient.GeometrySentOnce | src/client/blurclient.h:75-80 | setting the same geometry twice sends it once, and setting the initial empty geometry sends nothing |
| BlurClient.AttachOnce | src/client/blurclient.h:82-94 | attaching to the same surface twice sends add_mask once; detaching sends nothing |
| BlurClient.SurfaceCache | src/client/blurclient.cpp:32-39 | repeated calls for a window give the same object, created by a single get_blur; after forgetSurface a fresh one is created |
| BlurClient.NoSurfaceNoEntry | src/client/blurclient.cpp:27-31 | no window, or no native surface, gets no object, and nothing is requested or cached |

## Findings

| source | as written | input that shows it | evidently intended | confidence | as-written member | corrected member |
|---|---|---|---|---|---|---|
| src/wayland/blurinterface.cpp:152-155 | destroy_resource deletes the blur object but leaves its pointer in `m_blurs` | get_blur for surface 7, destroy the blur object, then get_blur for surface 7 again and call mask(7): the second get_blur is refused with BLUR_EXISTS, and mask() reads the deleted object | destroying a blur object also erases its registry entry, so the surface can register again and mask() returns null | not executed | BlurInterface.ReRegisterAfterDestroyAsWritten | BlurInterface.Manager.DestroySurfaceBlur |

The model keeps the as-written `SurfaceBlur.DestroyResource`, which leaves
the registry untouched. `BlurInterface.ReRegisterAfterDestroyCorrected`
shows the corrected destruction at work. `Manager.Mask` shows why the
corrected form is safe: it proves that no use-after-free happens while every
registry entry is alive. `Manager.DestroySurfaceBlur` keeps the registry in
that state.

## Left out

- Shader loading, uniform lookup, the GL pass bodies, blending and texture binding (src/blur.cpp:53-87, 665-758): GPU calls. Only the order of the passes is modelled.
- The dirty-region blit into level 0 (src/blur.cpp:555-561): GPU work. Only whether a capture happens (`recaptured`) is modelled.
- Window positions (src/blur.cpp:373, 470): `w->pos()` is a QPointF, and every use rounds it with `toPoint()`; the model takes that rounded integer position as its input.
- The vertex positions and texture coordinates (src/blur.cpp:565-663): floating point. Only the vertex count 6 + 6·|effective shape| and whether the buffer maps are modelled.
- The scaled blur-shape path (src/blur.cpp:471-481): floating-point `floor` on scales. Its result is an input (`scaledShape`).
- `snapToPixelGrid` / `scaledRect` device-pixel mapping: the viewport scale is taken to be 1, so device and logical rectangles coincide.
- The opacity curve (src/blur.cpp:489, 743-756): floating point.
- ShouldBlur: `qFuzzyCompare` is modelled as exact equality with 1.0.
- `ensureNoiseTexture` and the commented-out noise pass (src/blur.cpp:420-454, 761-791): randomness, QImage, and code that never runs.
- `enabledByDefault` and `supported` (src/blur.cpp:307-331): GPU capability queries.
- The global manager with its delayed-removal timer, the destructor, `slotWindowAdded`, `setupDecorationConnections`, `eventFilter` and `drawWindow` (src/blur.cpp:92-134, 252-305, 412-418): Qt signals, timers and delegation. The blur-region update they all trigger is modelled (`UpdateBlurRegion`), as is blur().
- UpdateBlurRegion: the registry's per-surface lookup (`s_blurManager->surface(...)`, its `mask()` and `region()`) is an input. The interface that would declare it is not part of this model.
- Effect.constructor: the constructor's own pass over the stacking order (src/blur.cpp:119-123), which calls slotWindowAdded and so updateBlurRegion for every window, is not part of the constructor's contract; it is modelled as one `UpdateBlurRegion` call per window after construction, so a constructed effect has no window data yet.
- Effect.constructor: when a shader fails to load, the source leaves `m_iterationCount`, `m_offset`, `m_expandSize` and `m_noiseStrength` uninitialised; the model gives them 0.
- Reconfigure: `effects->addRepaintFull()` is a call into the compositor and is not modelled. The configuration values (strength, noise, interval) are parameters.
- SHM buffer views and texture upload (src/wayland/blurinterface.cpp:53-62): foreign calls. Whether a view exists and whether the upload succeeds are inputs.
- `updateShmTexture` (src/wayland/blurinterface.cpp:64-74): nothing in the modelled files calls it.
- `wl_resource` creation, posted protocol errors and the out-of-memory path: only the outcome (`InvalidSurface`, `NoMemory`, `BlurExists`) is modelled.
- The manager global's destruction and `remove()` (src/wayland/blurinterface.cpp:28-31, 142-145): the lifetime of the Wayland global.
- SurfaceBlur.SetMask: the shared-memory assertion is a precondition. Buffers without shared-memory attributes are not modelled.
- BlurMask.SendMask: its definition is not part of this model. It is modelled as sending the image and intensity, with the resulting `dirty` flag an input (`dirtyAfter`), so the model does not decide whether a sent mask is clean.
- BlurMask.SetGeometry: QRectF equality is modelled as exact equality of the four coordinates.
- BlurMask.SetSurface: the `QPointer` that becomes null when its surface object is deleted is not modelled.
- BlurMask's destructor, its `ShmBuffer`, and the client's QtQuick items: protocol teardown and UI plumbing.
- Multi-source additive mask composition: no code in the modelled files implements it.
- The strength table computes in `float`; the model computes in `real`. All band values are small exact rationals.
- The offsets are not monotone along the whole table, as one might expect from a strength slider. They increase within each band but drop at a band start (`StrengthCurve.OffsetsDropAtBandStart`). The model follows the code.
