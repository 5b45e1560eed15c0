# Twinkle core, modelled in Dafny

Twinkle is a Java desktop demo. It shows a carousel of pictures in an
OpenGL scene, with reflections, drop shadows, captions, slide and zoom
animations, and an accumulation-buffer anti-aliasing pass. A small
equation-plotting panel comes with it. This project models the logic
underneath that UI, one Dafny module per Java file:

| module | Java class | form |
|---|---|---|
| `Ui` (`picture_viewer.dfy`) | `PictureViewer`: the four-slot carousel, the picture list, the init/dispose queues of GL quads, the slide and zoom animations, the caption fade | a class with the viewer's fields and arrays, specified by a value-level `Viewer` state and functions on it |
| `Jogl` (`gl_utilities.dfy`) | `GLUtilities`: the jitter table, the nearest-sample-count fallback, the accumulation-buffer render loop | a class with a lazily built table and a method per operation; the GL context is a log of calls |
| `SwingxUtil` (`shadow_factory.dfy`) | `ShadowFactory`: the settings with their property-change events, and the two-pass box blur of `createShadowFast` | a class for the settings; the blur is imperative code over an `array2<int>` raster and a circular `array<int>` history |
| `JoglUtil` (`depth_comparator.dfy`) | `DepthComparator.compare` | pure functions |
| `Rendering` (`billboard.dfy`) | `Billboard`, the wrapper that forwards position and scale to the item it holds | classes |
| `MathEquation` (`equation_display.dfy`) | `EquationDisplay`: viewport validation, the position/pixel maps, panning, wheel zoom, the list of drawn equations | pure functions on a `Viewport` value, and a class whose methods update it |

`wrappers.dfy` holds `Option` and `Result`. `geometry.dfy` holds the float
triples (`Point3f`, taken as reals) and the integer triples (`Point3i`).

What the proofs establish, in outline:

- **Carousel.** Every operation keeps a *window invariant*. The four slots
  show pictures `selected-1 .. selected+2`, where those exist. No quad sits
  in two slots. No quad that was queued for disposal, or disposed, is still
  in a slot. A forward slide followed by a backward slide restores the
  pictures in every slot.
- **Jitter table.** Set *k* holds *k* offsets, each strictly inside the
  pixel (|x|, |y| < 1/2). A request for a count not in the table gets the
  nearest count, the first of equals in the map's iteration order. This
  holds for every request from `Integer.MIN_VALUE + 67` up. Below that,
  32-bit wrap-around in `Math.abs` picks 66 instead of 2.
- **Anti-aliasing.** The GL trace is one accumulate pass per sample, in
  table order. Each pass has weight 1/n, so the weights sum to 1.
- **Shadow blur.** The in-place two-pass sliding-window blur produces, for
  every pixel, the value of a closed-form definition (`ShadowPixel`). The
  definition averages a window of `size` samples horizontally, then
  vertically. Every pixel is a valid ARGB value in the shadow colour, with
  alpha at most `255 * opacity`.
- **Depth comparator.** Its sign follows the distance difference. It is
  antisymmetric for distinct renderables, but not for two nulls. Its
  "equal" relation is not transitive.
- **Equation display.**
  - A viewport is accepted exactly when it is well formed.
  - The position-to-pixel maps send the range ends to the panel edges.
  - A drag moves every plotted point by exactly the pointer's offset.
  - Zooming keeps the centre. One wheel notch in and one out restores the
    viewport.
  - Adding an equation and then removing it restores the list.

Three behaviours of the code that the model follows deliberately:

- `renderAntiAliased` loops over the samples it got back, and weights each
  pass by `1 / samples.length`. When the table substitutes a nearer
  count, the number of passes is that count, not the requested `aa`.
- The fallback in `getJitterSamples` measures distance with 32-bit
  `Math.abs`, which wraps. It is not an exact absolute value.
- The property-change events of `ShadowFactory` are logged once per call,
  including calls that do not change the value.

## Model

| member | source | states |
|---|---|---|
| Ui.SlotsWith | src/main/java/org/progx/twinkle/ui/PictureViewer.java:323 | storing a quad into slot `index` changes that slot and no other |
| Ui.InitCalls | src/main/java/org/progx/twinkle/ui/PictureViewer.java:556-561 | draining the init queue issues one `init` per queued quad, in queue order |
| Ui.DisposeCalls | src/main/java/org/progx/twinkle/ui/PictureViewer.java:563-568 | draining the dispose queue issues one `dispose` per queued quad, in queue order |
| Ui.RestingPose | src/main/java/org/progx/twinkle/ui/PictureViewer.java:322-345 | the pose `createQuad` gives each slot: the selected and left slots full size and turned 30 degrees, 2 quad widths apart; the next and right slots half size, turned -20 degrees, lowered by half the quad height and 160 apart; `Ui.CreatedQuadIsFresh` states that every created quad lands in it |
| Ui.QuadCreated | src/main/java/org/progx/twinkle/ui/PictureViewer.java:308-348 | `createQuad` on the state: a new quad with the next identity for the picture, stored in the slot in its resting pose; its properties are stated by `Ui.CreatedQuadIsFresh` |
| Ui.SlotFillAsWritten | src/main/java/org/progx/twinkle/ui/PictureViewer.java:155-161 | the slot choice as written: the picture number is fixed by the slot (0, 1 or 2), whatever the list size |
| Ui.SlotFill | src/main/java/org/progx/twinkle/ui/PictureViewer.java:155-161 | the corrected slot choice: the same slot as written, always for the new picture `size - 1`, and equal to the as-written choice exactly when that slot is the selected one, the next one with two pictures, or the right one with three |
| Ui.PictureAddedAsWritten | src/main/java/org/progx/twinkle/ui/PictureViewer.java:144-161 | `addPicture` with the hard-coded picture numbers; `Ui.PictureAddedAsWrittenBreaksWindow` shows it breaking the window |
| Ui.PictureAdded | src/main/java/org/progx/twinkle/ui/PictureViewer.java:144-161 | `addPicture` with the corrected slot fill; `Ui.PictureAddedKeepsWindow` states what it keeps |
| Ui.SlideCaption | src/main/java/org/progx/twinkle/ui/PictureViewer.java:658-675 | the caption a slide prepares: that of picture `next` going forward, of picture `selected - 1` going back, or none |
| Ui.MovedLeft | src/main/java/org/progx/twinkle/ui/PictureViewer.java:816-819 | a quad moved into the left slot takes the left slot's resting position and rotation and keeps its identity, picture, height and scale |
| Ui.NextShifted | src/main/java/org/progx/twinkle/ui/PictureViewer.java:808-831 | the slot shift of `selectNextPicture`; `Ui.NextShiftedSound` states what it keeps |
| Ui.NextSelected | src/main/java/org/progx/twinkle/ui/PictureViewer.java:807-838 | `selectNextPicture` on the state; `Ui.NextSelectedKeepsWindow` states its effect |
| Ui.PreviousShifted | src/main/java/org/progx/twinkle/ui/PictureViewer.java:775-798 | the slot shift of `selectPreviousPicture`; `Ui.PreviousShiftedSound` states what it keeps |
| Ui.PreviousSelected | src/main/java/org/progx/twinkle/ui/PictureViewer.java:774-805 | `selectPreviousPicture` on the state; `Ui.PreviousSelectedKeepsWindow` states its effect |
| Ui.Drained | src/main/java/org/progx/twinkle/ui/PictureViewer.java:555-569 | `initAndDisposeQuads` on the state; `Ui.DrainedKeepsWindow` states its effect |
| Ui.RawTextAlpha | src/main/java/org/progx/twinkle/ui/PictureViewer.java:759-767 | the fade before the lower clamp: down from 1 over the first half of the slide, back up and capped at 1 over the second; `Ui.CaptionSwapWindow` states where it is below 0.1 |
| Ui.TextAlpha | src/main/java/org/progx/twinkle/ui/PictureViewer.java:759-772 | the fade with the floor at 0.1; `Ui.TextAlphaBounds` bounds it |
| Ui.CreatedQuadIsFresh | src/main/java/org/progx/twinkle/ui/PictureViewer.java:308-348 | a created quad has a fresh identity (no slot or queue holds it), lands in its slot in that slot's resting pose, leaves the other slots alone, and updates `selectedPicture`/`nextPicture` only for their own slots |
| Ui.CreatedOverwrites | src/main/java/org/progx/twinkle/ui/PictureViewer.java:308-348 | what the target slot held before has no effect on the quad created or the resulting state |
| Ui.QuadQueued | src/main/java/org/progx/twinkle/ui/PictureViewer.java:156-160 | a quad created into a slot and appended to the init queue; `Ui.QuadQueuedSound` states what it keeps |
| Ui.NewPicture | src/main/java/org/progx/twinkle/ui/PictureViewer.java:145-147 | the stored picture: a null name becomes "", and the quad height is kept; `Ui.PictureAddedKeepsWindow` states that `addPicture` appends exactly it |
| Ui.PictureAddedWith | src/main/java/org/progx/twinkle/ui/PictureViewer.java:144-161 | `addPicture` for a given slot choice: the picture is appended, and the chosen slot, if any, gets a queued quad |
| Ui.QuadQueuedSound | src/main/java/org/progx/twinkle/ui/PictureViewer.java:308-348 | creating a quad and queuing it for init keeps the ownership invariant (no quad in two slots, nothing disposed or queued for disposal still in a slot) |
| Ui.PictureAddedKeepsWindow | src/main/java/org/progx/twinkle/ui/PictureViewer.java:144-172 | with the evidently intended slot fill, adding a picture keeps the window invariant, appends the picture, selects picture 0 when it is the first, and at most appends one quad to the init queue |
| Ui.PictureAddedSound | src/main/java/org/progx/twinkle/ui/PictureViewer.java:144-172 | adding a picture keeps the ownership invariant |
| Ui.PictureAddedWindow | src/main/java/org/progx/twinkle/ui/PictureViewer.java:144-172 | with the corrected slot fill (first row of the findings), adding a picture keeps the slots showing pictures selected-1 .. selected+2; the code as written breaks this, as `Ui.PictureAddedAsWrittenBreaksWindow` shows |
| Ui.PictureAddedAsWrittenBreaksWindow | src/main/java/org/progx/twinkle/ui/PictureViewer.java:155-161 | with the hard-coded picture numbers, two pictures with the second selected plus a third arriving put picture 1 into the next slot, and the window is broken |
| Ui.NextShiftedSound | src/main/java/org/progx/twinkle/ui/PictureViewer.java:808-831 | the slot shift of a forward slide keeps ownership sound and takes the old left quad out of every slot |
| Ui.NextSelectedKeepsWindow | src/main/java/org/progx/twinkle/ui/PictureViewer.java:807-838 | a forward selection moves both indices up by one, shifts every quad one slot left, hands the old left quad to the dispose queue exactly once, and keeps the window invariant |
| Ui.PreviousShiftedSound | src/main/java/org/progx/twinkle/ui/PictureViewer.java:775-798 | the slot shift of a backward slide keeps ownership sound and takes the old right quad out of every slot |
| Ui.PreviousSelectedKeepsWindow | src/main/java/org/progx/twinkle/ui/PictureViewer.java:774-805 | a backward selection moves both indices down by one, shifts every quad one slot right, hands the old right quad to the dispose queue exactly once, and keeps the window invariant |
| Ui.WindowDeterminesPictures | src/main/java/org/progx/twinkle/ui/PictureViewer.java:144-161 | the picture list and the selection determine which picture every slot shows |
| Ui.NextThenPreviousRestoresWindow | src/main/java/org/progx/twinkle/ui/PictureViewer.java:774-838 | a forward selection followed by a backward one restores the indices and the picture shown in every slot |
| Ui.DrainedKeepsWindow | src/main/java/org/progx/twinkle/ui/PictureViewer.java:555-569 | draining both queues empties them, leaves the slots alone, logs one GL call per queued quad and keeps the invariant |
| Ui.TextAlphaBounds | src/main/java/org/progx/twinkle/ui/PictureViewer.java:759-772 | during a slide the caption alpha stays in [0.1, 1] |
| Ui.CaptionSwapWindow | src/main/java/org/progx/twinkle/ui/PictureViewer.java:759-772 | the caption text is swapped exactly when the elapsed time is strictly between 360 and 440 ms |
| Ui.CaptionKeepsConsistent | src/main/java/org/progx/twinkle/ui/PictureViewer.java:768-771 | swapping the caption image does not affect the carousel or a running slide |
| Ui.PictureViewer.constructor | src/main/java/org/progx/twinkle/ui/PictureViewer.java:120-133 | a new viewer has no pictures, empty slots and queues, selected = next = -1, every action disabled and no animation running |
| Ui.PictureViewer.CreateQuad | src/main/java/org/progx/twinkle/ui/PictureViewer.java:308-348 | the new state and quad are those of `QuadCreated` |
| Ui.PictureViewer.QueueQuad | src/main/java/org/progx/twinkle/ui/PictureViewer.java:155-161 | creates a quad and appends it to the init queue, as `QuadQueued` |
| Ui.PictureViewer.AddPicture | src/main/java/org/progx/twinkle/ui/PictureViewer.java:144-172 | with the corrected slot fill (first row of the findings, not the hard-coded 1 and 2 of lines 158 and 160): keeps the invariant, the new state is `PictureAdded`, and the show/next/previous actions are enabled exactly when they can act |
| Ui.PictureViewer.FillWaitingSlot | src/main/java/org/progx/twinkle/ui/PictureViewer.java:155-161 | corrected as in the first row of the findings: queues a quad for the new picture `size - 1` (the source hard-codes 1 and 2) in the one slot waiting for it, if any |
| Ui.PictureViewer.EnableActions | src/main/java/org/progx/twinkle/ui/PictureViewer.java:167-169 | show is enabled when a picture is selected, next when one follows it, previous when one precedes it |
| Ui.PictureViewer.ShowSelectedPicture | src/main/java/org/progx/twinkle/ui/PictureViewer.java:174-184 | ignored while an animation runs; otherwise toggles the zoomed state and starts the zoom |
| Ui.PictureViewer.ShowPicture | src/main/java/org/progx/twinkle/ui/PictureViewer.java:276-306 | ignored while an animation runs; while zoomed it unzooms first and defers the slide; otherwise starts a slide in the given direction with the next caption |
| Ui.PictureViewer.NextPicture | src/main/java/org/progx/twinkle/ui/PictureViewer.java:186-193 | does nothing on the last picture; otherwise behaves as a forward `showPicture`: ignored while an animation runs, deferred while zoomed, and otherwise starts a forward slide with the next caption |
| Ui.PictureViewer.PreviousPicture | src/main/java/org/progx/twinkle/ui/PictureViewer.java:195-199 | does nothing on the first picture; otherwise behaves as a backward `showPicture`: ignored while an animation runs, deferred while zoomed, and otherwise starts a backward slide with the previous caption |
| Ui.PictureViewer.SelectNextPicture | src/main/java/org/progx/twinkle/ui/PictureViewer.java:807-838 | the new state is `NextSelected` of the old one, and the invariant holds |
| Ui.PictureViewer.ShiftForward | src/main/java/org/progx/twinkle/ui/PictureViewer.java:808-831 | shifts the slots left and queues the old left quad for disposal, as `NextShifted` |
| Ui.PictureViewer.SelectPreviousPicture | src/main/java/org/progx/twinkle/ui/PictureViewer.java:774-805 | the new state is `PreviousSelected` of the old one, and the invariant holds |
| Ui.PictureViewer.ShiftBackward | src/main/java/org/progx/twinkle/ui/PictureViewer.java:775-798 | shifts the slots right and queues the old right quad for disposal, as `PreviousShifted` |
| Ui.PictureViewer.SlideTick | src/main/java/org/progx/twinkle/ui/PictureViewer.java:677-711 | before the slide delay, only the caption and the animation factor change; at the delay, the slide ends with the selection moved one way |
| Ui.PictureViewer.EndSlide | src/main/java/org/progx/twinkle/ui/PictureViewer.java:679-695 | ends a slide: selection moved forward or back, factor reset, next/previous enabled as the new position allows |
| Ui.PictureViewer.SettleActions | src/main/java/org/progx/twinkle/ui/PictureViewer.java:689-695 | re-enables next/previous from the new position and resets the animation factor |
| Ui.PictureViewer.SetTextAlpha | src/main/java/org/progx/twinkle/ui/PictureViewer.java:759-772 | the alpha follows the fade curve, and the caption switches to the next one while the raw alpha is below 0.1 |
| Ui.PictureViewer.ZoomTick | src/main/java/org/progx/twinkle/ui/PictureViewer.java:617-627 | the zoom stops at its delay and changes nothing else |
| Ui.PictureViewer.InitAndDisposeQuads | src/main/java/org/progx/twinkle/ui/PictureViewer.java:555-569 | the new state is `Drained`, and the invariant holds |
| Ui.PictureViewer.InitQueued | src/main/java/org/progx/twinkle/ui/PictureViewer.java:556-561 | empties the init queue and logs its calls |
| Ui.PictureViewer.DisposeQueued | src/main/java/org/progx/twinkle/ui/PictureViewer.java:563-568 | empties the dispose queue and logs its calls |
| Jogl.Scan | src/main/java/org/progx/jogl/GLUtilities.java:142-151 | the fallback loop over the keys in iteration order: a key replaces the best so far only when its 32-bit distance is strictly smaller; `Jogl.ScanFindsNearest` and `Jogl.ScanPicksCloseKey` state its result |
| Jogl.Gap | src/main/java/org/progx/jogl/GLUtilities.java:146-147 | `Math.abs(value - sampleAmount)` in 32-bit arithmetic; `Jogl.ScanPicksCloseKey` states where it equals the exact distance |
| Jogl.NearestPick | src/main/java/org/progx/jogl/GLUtilities.java:145-150 | the reference definition the scan is proved against: the pick is as near as every key and no earlier key is as near |
| Jogl.Passes | src/main/java/org/progx/jogl/GLUtilities.java:83-91 | the loop's GL calls: clear, jitter by the sample, render, accumulate 1/n, once per sample; four calls per sample |
| Jogl.AntiAliasedTrace | src/main/java/org/progx/jogl/GLUtilities.java:71-95 | the calls of `renderAntiAliased`; `Jogl.AntiAliasedTraceShape` states their shape, render count and total weight |
| Jogl.KeyOrderEnumeratesTable | src/main/java/org/progx/jogl/GLUtilities.java:145 | the iteration order used for concrete results lists every key of the table exactly once |
| Jogl.JitterTableKeys | src/main/java/org/progx/jogl/GLUtilities.java:159-281 | the table offers exactly the counts 2, 3, 4, 8, 15, 24 and 66 |
| Jogl.JitterTableShape | src/main/java/org/progx/jogl/GLUtilities.java:158-282 | every set holds as many offsets as its key, each strictly inside the pixel |
| Jogl.SmallSetsSubPixel | src/main/java/org/progx/jogl/GLUtilities.java:160-176 | the 2-, 3-, 4- and 8-sample offsets lie strictly inside the pixel |
| Jogl.LargeSetsSubPixel | src/main/java/org/progx/jogl/GLUtilities.java:177-281 | the 15-, 24- and 66-sample offsets lie strictly inside the pixel |
| Jogl.Jitter15SubPixel | src/main/java/org/progx/jogl/GLUtilities.java:177-191 | the 15-sample offsets lie strictly inside the pixel |
| Jogl.Jitter24SubPixel | src/main/java/org/progx/jogl/GLUtilities.java:192-215 | the 24-sample offsets lie strictly inside the pixel |
| Jogl.Jitter66FrontSubPixel | src/main/java/org/progx/jogl/GLUtilities.java:216-248 | the first 33 of the 66-sample offsets lie strictly inside the pixel |
| Jogl.Jitter66BackSubPixel | src/main/java/org/progx/jogl/GLUtilities.java:249-281 | the last 33 of the 66-sample offsets lie strictly inside the pixel |
| Jogl.SubPixelConcat | src/main/java/org/progx/jogl/GLUtilities.java:216-281 | joining two sets of in-pixel offsets gives a set of in-pixel offsets |
| Jogl.Wrap32 | src/main/java/org/progx/jogl/GLUtilities.java:147 | Java `int` subtraction: the result is a 32-bit value congruent to the exact one, and equal to it when that fits |
| Jogl.Abs32 | src/main/java/org/progx/jogl/GLUtilities.java:147 | `Math.abs` on `int`: the true absolute value, except that `Integer.MIN_VALUE` maps to itself |
| Jogl.ScanPicksCloseKey | src/main/java/org/progx/jogl/GLUtilities.java:142-151 | the fallback scan keeps `Integer.MAX_VALUE` and 0 when no key is closer than that, and otherwise returns one of the keys |
| Jogl.TwoOrThreeIsClose | src/main/java/org/progx/jogl/GLUtilities.java:145-150 | for every 32-bit request, key 2 or key 3 is at a wrapped distance below `Integer.MAX_VALUE`, so the scan always finds a key |
| Jogl.Chosen | src/main/java/org/progx/jogl/GLUtilities.java:141-154 | the key whose set `getJitterSamples` returns: the request itself when it is a key, otherwise the fallback scan's pick; `Jogl.ChosenIsKey` and `Jogl.NearestKey` state what it is |
| Jogl.ChosenIsKey | src/main/java/org/progx/jogl/GLUtilities.java:141-154 | whatever the request, the count used is a key of the table |
| Jogl.NearestPickExtend | src/main/java/org/progx/jogl/GLUtilities.java:145-150 | one step of the scan: a strictly closer key replaces the best so far, otherwise the best is kept |
| Jogl.ScanFindsNearest | src/main/java/org/progx/jogl/GLUtilities.java:142-151 | when no distance wraps, the scan returns the first key of least distance, in iteration order |
| Jogl.NearestPickFirstClose | src/main/java/org/progx/jogl/GLUtilities.java:146-149 | the first key closer than `Integer.MAX_VALUE` becomes the best so far |
| Jogl.NearestKey | src/main/java/org/progx/jogl/GLUtilities.java:141-154 | for a missing request of at least `Integer.MIN_VALUE + 67`, the count used is a nearest key, and no earlier key in iteration order is as near |
| Jogl.NearestPickCoversKeys | src/main/java/org/progx/jogl/GLUtilities.java:145-150 | a scan over an order that lists every key finds a key at least as near as each of them |
| Jogl.KeyInRange | src/main/java/org/progx/jogl/GLUtilities.java:159-281 | every key lies in 2..66 |
| Jogl.NoWrapAboveMin | src/main/java/org/progx/jogl/GLUtilities.java:147 | from `Integer.MIN_VALUE + 67` up, the 32-bit distance to a key equals the exact one |
| Jogl.SixSamplesGiveFour | src/main/java/org/progx/jogl/GLUtilities.java:141-154 | a request for 6 samples gets the 4-sample set: 4 comes before 8 in iteration order and is as near |
| Jogl.WrappedRequestGetsSixtySix | src/main/java/org/progx/jogl/GLUtilities.java:146-148 | a request for `Integer.MIN_VALUE + 66` gets 66 samples, though 2 is nearer: the distance to 2 wraps |
| Jogl.JitterSamples | src/main/java/org/progx/jogl/GLUtilities.java:135-155 | the samples returned have as many offsets as the chosen key (`Jogl.Chosen`), exactly the requested count when the table has it, and lie strictly inside the pixel; `Jogl.JitterSamplesIsTableSet` states which set they are |
| Jogl.JitterSamplesIsTableSet | src/main/java/org/progx/jogl/GLUtilities.java:135-155 | the samples returned are exactly the table's set for the chosen key, and that key is in the table, so the lookup at line 153 never yields null |
| Jogl.CountsOfConcat | src/main/java/org/progx/jogl/GLUtilities.java:83-91 | render calls and accumulate weights add up over consecutive parts of a trace |
| Jogl.PassCounts | src/main/java/org/progx/jogl/GLUtilities.java:84-90 | one pass renders the scene once and accumulates it with weight 1/n |
| Jogl.PassesRender | src/main/java/org/progx/jogl/GLUtilities.java:83-91 | the loop renders the scene once per sample |
| Jogl.PassesWeight | src/main/java/org/progx/jogl/GLUtilities.java:83-91 | the loop accumulates a total weight of (number of samples) * 1/n |
| Jogl.PassesInOrder | src/main/java/org/progx/jogl/GLUtilities.java:83-91 | pass *i* of the trace is the pass for sample *i*, in table order |
| Jogl.AntiAliasedTraceShape | src/main/java/org/progx/jogl/GLUtilities.java:71-95 | with `aa <= 1` the scene renders once and nothing is accumulated. Otherwise the trace is: read the viewport, clear the accumulation buffer, one pass per sample in order, then return with weight 1 and flush. The scene renders once per sample and the weights sum to 1 |
| Jogl.GLUtilities.constructor | src/main/java/org/progx/jogl/GLUtilities.java:13 | the jitter table starts unbuilt |
| Jogl.GLUtilities.InitJitterMap | src/main/java/org/progx/jogl/GLUtilities.java:158-282 | builds exactly the jitter table |
| Jogl.GLUtilities.GetJitterSamples | src/main/java/org/progx/jogl/GLUtilities.java:135-155 | builds the table on first use, then returns `JitterSamples` of the request |
| Jogl.GLUtilities.NearestSampleAmount | src/main/java/org/progx/jogl/GLUtilities.java:142-151 | the loop computes the scan's result: the first key of least wrapped distance, or 0 when none is closer than `Integer.MAX_VALUE` |
| Jogl.GLUtilities.RenderAntiAliased | src/main/java/org/progx/jogl/GLUtilities.java:71-95 | appends exactly `AntiAliasedTrace` of the request and its samples to the GL log, and leaves the table untouched when `aa <= 1` |
| Jogl.GLUtilities.AccumulatePasses | src/main/java/org/progx/jogl/GLUtilities.java:83-91 | the loop appends the passes for all samples, each weighted 1/n |
| SwingxUtil.Window | src/org/jdesktop/swingx/util/ShadowFactory.java:118-167 | the sum the circular history holds: entries `lo .. hi-1`, with positions outside the row counting 0; `SwingxUtil.WindowPeel`, `SwingxUtil.WindowSlide` and `SwingxUtil.WindowBounds` state how it slides and what bounds it |
| SwingxUtil.Left | src/org/jdesktop/swingx/util/ShadowFactory.java:103-104 | `shadowSize - 1 >> 1`: the `size - 1` padding rows split into `left` above and `right - 1` below, with at most one more below |
| SwingxUtil.HAlpha | src/org/jdesktop/swingx/util/ShadowFactory.java:126 | the horizontal pass's alpha at destination column `k`: the window of the `size` source columns before it, divided by `size` and truncated; `SwingxUtil.HAlphaBounds` bounds it |
| SwingxUtil.Intermediate | src/org/jdesktop/swingx/util/ShadowFactory.java:115-147 | the alpha the horizontal pass leaves at a pixel: `HAlpha` of source row `r - left`, and 0 in the padding rows; `SwingxUtil.IntermediateBounds` bounds it |
| SwingxUtil.VAlpha | src/org/jdesktop/swingx/util/ShadowFactory.java:168 | the vertical pass's alpha: a window sum times `opacity / size`, truncated; `SwingxUtil.VAlphaBounds` bounds it |
| SwingxUtil.ShadowPixel | src/org/jdesktop/swingx/util/ShadowFactory.java:148-191 | the reference definition of a shadow pixel: the vertical window over the intermediate column, in the shadow colour; `SwingxUtil.VerticalPass` proves the in-place blur equal to it |
| SwingxUtil.UsesFastBlur | src/org/jdesktop/swingx/util/ShadowFactory.java:78 | the fast path is taken unless the quality hint is the high-quality value |
| SwingxUtil.WindowPeel | src/org/jdesktop/swingx/util/ShadowFactory.java:115-147 | a window sum is its first sample plus the sum of the rest |
| SwingxUtil.WindowSlide | src/org/jdesktop/swingx/util/ShadowFactory.java:128-130 | sliding the window one step subtracts the sample that leaves and adds the one that enters |
| SwingxUtil.WindowBounds | src/org/jdesktop/swingx/util/ShadowFactory.java:115-147 | a window over samples in [0, bound] sums to between 0 and bound times its width |
| SwingxUtil.WindowOutside | src/org/jdesktop/swingx/util/ShadowFactory.java:115-147 | a window entirely outside the image sums to 0, because the padding is transparent |
| SwingxUtil.HAlphaBounds | src/org/jdesktop/swingx/util/ShadowFactory.java:126 | the horizontal pass writes alphas in 0..255 |
| SwingxUtil.VAlphaBounds | src/org/jdesktop/swingx/util/ShadowFactory.java:168 | the vertical pass writes alphas between 0 and 255 * opacity |
| SwingxUtil.ClearHistory | src/org/jdesktop/swingx/util/ShadowFactory.java:118-121 | zeroes the first `count` history entries and leaves the rest |
| SwingxUtil.NextSlot | src/org/jdesktop/swingx/util/ShadowFactory.java:131-133 | advancing the circular index shifts the history by one: the oldest slot becomes the newest |
| SwingxUtil.BlurRow | src/org/jdesktop/swingx/util/ShadowFactory.java:118-145 | row `y` of the raster ends up holding the horizontal box-blur alpha of the source row at every column, and other rows are unchanged |
| SwingxUtil.SlideAlongRow | src/org/jdesktop/swingx/util/ShadowFactory.java:122-135 | the first loop writes the blurred alpha of every source column and leaves the history holding the last `size` samples |
| SwingxUtil.FlushRow | src/org/jdesktop/swingx/util/ShadowFactory.java:136-145 | the second loop writes the blurred alpha of the padding columns |
| SwingxUtil.HorizontalPass | src/org/jdesktop/swingx/util/ShadowFactory.java:115-147 | after the first pass, every pixel holds `Intermediate(x, y)`, shifted into the alpha byte |
| SwingxUtil.BlurColumn | src/org/jdesktop/swingx/util/ShadowFactory.java:151-189 | column `x` ends up holding the vertical box blur of the intermediate column at every row, in the shadow colour, and other columns are unchanged |
| SwingxUtil.PrimeColumn | src/org/jdesktop/swingx/util/ShadowFactory.java:151-163 | clearing and priming the history gives the sum of the first window, the rows above the top taken as transparent |
| SwingxUtil.PushSample | src/org/jdesktop/swingx/util/ShadowFactory.java:170-175 | one history step returns the sample that leaves the window and stores the one that enters |
| SwingxUtil.SlideDownStep | src/org/jdesktop/swingx/util/ShadowFactory.java:168-177 | one step of the first column loop writes the blurred pixel at row `y`, and keeps the sum and the history in step with the window |
| SwingxUtil.SlideDownColumn | src/org/jdesktop/swingx/util/ShadowFactory.java:164-178 | the first column loop writes the blurred pixel of every row it visits |
| SwingxUtil.DrainColumn | src/org/jdesktop/swingx/util/ShadowFactory.java:179-189 | the second column loop writes the blurred pixels of the remaining rows |
| SwingxUtil.IntermediateBounds | src/org/jdesktop/swingx/util/ShadowFactory.java:115-147 | every intermediate alpha lies in 0..255 |
| SwingxUtil.VerticalPass | src/org/jdesktop/swingx/util/ShadowFactory.java:148-191 | after the second pass, every pixel holds `ShadowPixel` of the source |
| SwingxUtil.ShadowAlphaBounds | src/org/jdesktop/swingx/util/ShadowFactory.java:148-191 | every shadow alpha lies between 0 and 255 * opacity |
| SwingxUtil.ShadowPixelIsArgb | src/org/jdesktop/swingx/util/ShadowFactory.java:168-169 | every shadow pixel is a 32-bit ARGB value whose RGB is the shadow colour and whose alpha is at most 255 * opacity |
| SwingxUtil.ClampSize | src/org/jdesktop/swingx/util/ShadowFactory.java:71-75 | a negative size becomes 0; any other size is kept as is |
| SwingxUtil.ClampOpacity | src/org/jdesktop/swingx/util/ShadowFactory.java:61-65 | the opacity is clamped to [0, 1]: values inside are kept, values below become 0, values above become 1 |
| SwingxUtil.ShadowFactory.Default | src/org/jdesktop/swingx/util/ShadowFactory.java:22-24 | size 5, opacity 0.5, black, fast blur, with one change event per setter call |
| SwingxUtil.ShadowFactory.constructor | src/org/jdesktop/swingx/util/ShadowFactory.java:26-32 | size and opacity clamped, colour kept unless null, fast blur hinted, and one change event per setter call, starting from the field defaults |
| SwingxUtil.ShadowFactory.SetRenderingHint | src/org/jdesktop/swingx/util/ShadowFactory.java:42-44 | stores the hint under its key |
| SwingxUtil.ShadowFactory.SetColor | src/org/jdesktop/swingx/util/ShadowFactory.java:50-55 | a null colour is ignored; otherwise the colour is stored and a change event from the old value is logged |
| SwingxUtil.ShadowFactory.SetOpacity | src/org/jdesktop/swingx/util/ShadowFactory.java:61-65 | stores the clamped opacity and logs a change event from the old value |
| SwingxUtil.ShadowFactory.SetSize | src/org/jdesktop/swingx/util/ShadowFactory.java:71-75 | stores the clamped size and logs a change event from the old value |
| SwingxUtil.ShadowFactory.CreateShadowFast | src/org/jdesktop/swingx/util/ShadowFactory.java:94-193 | fails when the size is 0: `left` is then -1 (line 103), so the first row write at line 127 lands one row above the raster, out of bounds. Otherwise it returns a fresh raster, padded by `size` in each direction, whose every pixel is `ShadowPixel` of the source in the shadow colour |
| SwingxUtil.ShadowFactory.CreateShadow | src/org/jdesktop/swingx/util/ShadowFactory.java:77-84 | unless the quality hint is `high`, the result is the fast blur. With `high`, the result is an image padded by 2 * size on each axis |
| JoglUtil.Trunc | src/org/progx/jogl/util/DepthComparator.java:43 | truncation toward zero: the integer part of a real, rounded toward 0 |
| JoglUtil.IntCast | src/org/progx/jogl/util/DepthComparator.java:43 | the Java `(int)` cast of a float: truncation, saturated at the `int` bounds |
| JoglUtil.Compare | src/org/progx/jogl/util/DepthComparator.java:24-44 | a null first renderable gives -1. A null second one gives 1. The same renderable twice gives 0. Otherwise the result is the truncated difference of the two camera distances |
| JoglUtil.TruncOdd | src/org/progx/jogl/util/DepthComparator.java:43 | truncation commutes with negation |
| JoglUtil.CompareByDistance | src/org/progx/jogl/util/DepthComparator.java:35-43 | for distinct renderables, the result is positive exactly when the second is at least one unit farther, negative exactly when it is at least one unit nearer, and zero otherwise |
| JoglUtil.CompareAntisymmetric | src/org/progx/jogl/util/DepthComparator.java:24-44 | on non-null renderables, swapping the arguments flips the sign, and negates the result when the difference fits in an `int` |
| JoglUtil.NullsBreakAntisymmetry | src/org/progx/jogl/util/DepthComparator.java:25-27 | comparing null with null gives -1 both ways, so the comparator is not antisymmetric there |
| JoglUtil.EqualityNotTransitive | src/org/progx/jogl/util/DepthComparator.java:43 | with distances 0, 0.6 and 1.2, compare(a, b) = 0 and compare(b, c) = 0, but compare(a, c) = 1: a orders after c, so "equal" is not transitive |
| Rendering.Billboard.constructor | src/org/progx/jogl/rendering/Billboard.java:12-17 | stores the item and, when it is not null, resets its position to the origin and its scale to 1 |
| Rendering.Billboard.GetItem | src/org/progx/jogl/rendering/Billboard.java:24-26 | returns the wrapped item |
| Rendering.Billboard.SetItem | src/org/progx/jogl/rendering/Billboard.java:28-30 | replaces the wrapped item |
| Rendering.Billboard.GetPosition | src/org/progx/jogl/rendering/Billboard.java:42-45 | returns the item's position |
| Rendering.Billboard.SetPosition | src/org/progx/jogl/rendering/Billboard.java:47-53 | sets the item's position when there is an item, and leaves its scale and rotation alone |
| Rendering.Billboard.SetPositionXYZ | src/org/progx/jogl/rendering/Billboard.java:55-61 | sets the item's position from three coordinates, and leaves its scale and rotation alone |
| Rendering.Billboard.GetRotation | src/org/progx/jogl/rendering/Billboard.java:71-74 | a billboard always reports no rotation |
| Rendering.Billboard.GetScale | src/org/progx/jogl/rendering/Billboard.java:76-79 | returns the item's scale |
| Rendering.Billboard.SetRotationXYZ | src/org/progx/jogl/rendering/Billboard.java:81-83 | a billboard ignores rotation: the item is left unchanged |
| Rendering.Billboard.SetRotationArray | src/org/progx/jogl/rendering/Billboard.java:85-87 | a billboard ignores rotation: the item is left unchanged |
| Rendering.Billboard.SetRotation | src/org/progx/jogl/rendering/Billboard.java:89-91 | a billboard ignores rotation: the item is left unchanged |
| Rendering.Billboard.SetScaleXYZ | src/org/progx/jogl/rendering/Billboard.java:93-99 | sets the item's scale from three factors, and leaves its position and rotation alone |
| Rendering.Billboard.SetScale | src/org/progx/jogl/rendering/Billboard.java:109-115 | sets the item's scale, and leaves its position and rotation alone |
| MathEquation.WellFormed | src/org/progx/math/equation/EquationDisplay.java:38-63 | the arguments the constructor accepts; `MathEquation.Check` states that the checks pass exactly on them |
| MathEquation.Check | src/org/progx/math/equation/EquationDisplay.java:38-63 | the constructor's checks: no error exactly when the viewport is well formed. The X range is checked first, then the X origin; the other errors are the remaining messages |
| MathEquation.WellFormedSpans | src/org/progx/math/equation/EquationDisplay.java:38-63 | an accepted viewport has non-empty ranges that contain the origin |
| MathEquation.XPositionToPixel | src/org/progx/math/equation/EquationDisplay.java:119-121 | `xPositionToPixel`, with the component width as a parameter; `MathEquation.XPositionOnPanel` and `MathEquation.XPositionToPixelEnds` state its properties |
| MathEquation.YPositionToPixel | src/org/progx/math/equation/EquationDisplay.java:114-117 | `yPositionToPixel`, with the component height as a parameter; `MathEquation.YPositionOnPanel` and `MathEquation.YPositionToPixelEnds` state its properties |
| MathEquation.XPixelToPosition | src/org/progx/math/equation/EquationDisplay.java:123-126 | `xPixelToPosition`, measured from the pixel of the origin; `MathEquation.XPixelSign`, `MathEquation.XPixelRoundTrip` and `MathEquation.XDistance` state its properties |
| MathEquation.YPixelToPosition | src/org/progx/math/equation/EquationDisplay.java:128-131 | `yPixelToPosition`; `MathEquation.YPixelRoundTrip` shows it is not the inverse of `yPositionToPixel`, and `MathEquation.YDistance` shows its differences are still exact |
| MathEquation.XPositionOnPanel | src/org/progx/math/equation/EquationDisplay.java:119-121 | a position is drawn within the component's width exactly when it lies in `[minX, maxX]` |
| MathEquation.YPositionOnPanel | src/org/progx/math/equation/EquationDisplay.java:114-117 | a position is drawn within the component's height exactly when it lies in `[minY, maxY]` |
| MathEquation.XPixelSign | src/org/progx/math/equation/EquationDisplay.java:123-126 | a pixel maps to a negative position exactly when it lies left of the vertical axis |
| MathEquation.XPositionToPixelEnds | src/org/progx/math/equation/EquationDisplay.java:119-121 | `minX` maps to the left edge and `maxX` to the right edge, and the map is strictly increasing |
| MathEquation.YPositionToPixelEnds | src/org/progx/math/equation/EquationDisplay.java:114-117 | `minY` maps to the bottom edge and `maxY` to the top edge, and the map is strictly decreasing |
| MathEquation.XPixelRoundTrip | src/org/progx/math/equation/EquationDisplay.java:119-126 | pixel-to-position undoes position-to-pixel up to the X origin: the result is `p - originX` |
| MathEquation.YPixelRoundTrip | src/org/progx/math/equation/EquationDisplay.java:114-131 | the Y maps are inverse only up to the offset `originY - minY - maxY`, because the two formulas are not written as inverses |
| MathEquation.Panned | src/org/progx/math/equation/EquationDisplay.java:369-377 | a drag keeps both range widths and the origin |
| MathEquation.XDistance | src/org/progx/math/equation/EquationDisplay.java:123-126 | a pixel distance maps to a position distance of the same size times the X scale |
| MathEquation.YDistance | src/org/progx/math/equation/EquationDisplay.java:128-131 | a pixel distance maps to a position distance times the Y scale, with the sign flipped |
| MathEquation.PannedLowEnds | src/org/progx/math/equation/EquationDisplay.java:370-375 | the range ends move against the pointer's movement, scaled from pixels to positions |
| MathEquation.PanFollowsPointer | src/org/progx/math/equation/EquationDisplay.java:366-379 | after a drag, every plotted position appears exactly as many pixels further as the pointer moved, on both axes |
| MathEquation.PanMovesColumns | src/org/progx/math/equation/EquationDisplay.java:119-121 | moving the X range by `d` pixels' worth moves every column by `d` |
| MathEquation.PanMovesRows | src/org/progx/math/equation/EquationDisplay.java:114-117 | moving the Y range by `d` pixels' worth moves every row by `-d` |
| MathEquation.ShiftedMap | src/org/progx/math/equation/EquationDisplay.java:119-121 | shifting the low end of a range by `d` pixels' worth adds `d` to the mapped pixel |
| MathEquation.Zoomed | src/org/progx/math/equation/EquationDisplay.java:383-401 | a wheel notch keeps non-empty ranges and the origin |
| MathEquation.ZoomKeepsCentre | src/org/progx/math/equation/EquationDisplay.java:383-401 | zooming keeps the centre of both ranges. Scrolling up divides both widths by the zoom coefficient; scrolling down multiplies them by it |
| MathEquation.ZoomInThenOut | src/org/progx/math/equation/EquationDisplay.java:383-401 | one notch in followed by one notch out restores the viewport |
| MathEquation.EquationsOf | src/org/progx/math/equation/EquationDisplay.java:341-357 | the equations drawn, one per wrapper, in order |
| MathEquation.IndexOf | src/org/progx/math/equation/EquationDisplay.java:92-98 | the index of the first wrapper holding the equation, or the length when none does |
| MathEquation.AddedAsWritten | src/org/progx/math/equation/EquationDisplay.java:82-88 | `addEquation` as written: every non-null equation gets a new wrapper, because the guard at line 84 never fires; `MathEquation.AddedAsWrittenKeepsRemoved` shows the consequence |
| MathEquation.Added | src/org/progx/math/equation/EquationDisplay.java:82-88 | with the evidently intended guard: a null equation, or one already drawn, leaves the list unchanged; otherwise a wrapper is appended |
| MathEquation.Removed | src/org/progx/math/equation/EquationDisplay.java:90-102 | removes the first wrapper holding the equation and keeps the rest in order; a null or absent equation changes nothing |
| MathEquation.AddedKeepsDistinct | src/org/progx/math/equation/EquationDisplay.java:82-88 | with the intended guard, no equation is drawn twice, and the added equation is drawn |
| MathEquation.RemovedDropsEquation | src/org/progx/math/equation/EquationDisplay.java:90-102 | when no equation is drawn twice, removing one leaves it no longer drawn |
| MathEquation.AddThenRemove | src/org/progx/math/equation/EquationDisplay.java:82-102 | adding an equation that was not drawn and then removing it restores the list |
| MathEquation.AddedAsWrittenKeepsRemoved | src/org/progx/math/equation/EquationDisplay.java:84 | as written, adding the same equation twice draws it twice, and removing it once leaves it drawn |
| MathEquation.RemovedListeners | src/org/progx/math/equation/EquationDisplay.java:99-100 | removing a wrapper removes exactly one listener registration, for its equation |
| MathEquation.IndexOfFirst | src/org/progx/math/equation/EquationDisplay.java:93-97 | the search stops at the first wrapper holding the equation |
| MathEquation.EquationDisplay.constructor | src/org/progx/math/equation/EquationDisplay.java:37-80 | a display built from an accepted viewport stores it and starts with no equations and no drag |
| MathEquation.EquationDisplay.Create | src/org/progx/math/equation/EquationDisplay.java:37-80 | a rejected viewport fails with the first check's message; an accepted one gives a fresh display |
| MathEquation.EquationDisplay.FindDrawable | src/org/progx/math/equation/EquationDisplay.java:92-97 | the search loop returns `IndexOf` |
| MathEquation.EquationDisplay.AddEquation | src/org/progx/math/equation/EquationDisplay.java:82-88 | with the corrected duplicate guard (second row of the findings; as written, line 84 never fires and a second add appends a second wrapper and listener): the list becomes `Added`, and a listener is registered exactly when a wrapper was appended |
| MathEquation.EquationDisplay.RemoveEquation | src/org/progx/math/equation/EquationDisplay.java:90-102 | the list becomes `Removed` and one listener registration for the equation is removed; the equation is then no longer drawn because the corrected `AddEquation` never draws it twice (as written it can be, see the findings) |
| MathEquation.EquationDisplay.MousePressed | src/org/progx/math/equation/EquationDisplay.java:362 | remembers the press point |
| MathEquation.EquationDisplay.MouseDragged | src/org/progx/math/equation/EquationDisplay.java:369-377 | the viewport becomes `Panned` from the last point to the new one, and the new point is remembered |
| MathEquation.EquationDisplay.MouseWheelMoved | src/org/progx/math/equation/EquationDisplay.java:383-401 | the viewport becomes `Zoomed` by the wheel's direction |

## Left out

- Swing and OpenGL I/O. Painting, layout, component wiring and the GL calls
  are left out: frustum and perspective setup, `renderBillboard`,
  `getCameraVectors`, `drawLocalAxis`, `Billboard.render`/`init`, texture
  upload, the reflection pass. The GL context is only a log of the calls
  the modelled code issues.
- The `DepthComparator` constructor reads the camera matrix from GL. The
  model takes each renderable's camera distance as a function parameter.
  `compare` also transforms each position it reads in place
  (DepthComparator.java:35-41). That side effect on the renderables is
  not modelled. As a consequence `JoglUtil.CompareAntisymmetric` and the
  other comparator lemmas hold for one fixed distance per renderable; in
  the source a second `compare` call can see moved positions and so
  different distances.
- Timers, threads and the helper thread of a zoomed slide. The animations
  are modelled tick by tick, with the elapsed time as a parameter.
- Poses. The spline curve, the per-tick poses of quads during a slide, and
  `picturesStripHeight` are left out. A quad's pose is modelled only at
  rest.
- Captions. `generateTextImage` draws text with Java2D; captions are
  opaque tokens.
- Ui.PictureViewer.CreateQuad: requires a slot index in 0..3, where the
  source checks `index > renderables.length` and would then throw on an
  index of 4; every caller passes a valid slot.
- Ui.PictureViewer.SelectNextPicture: requires that no animation runs. Its
  only caller stops the timer before calling it (PictureViewer.java:680-686).
- Ui.PictureViewer.SelectPreviousPicture: requires that no animation runs,
  for the same reason as `SelectNextPicture`.
- Float arithmetic. The shadow's float dividers, the weight 1/n, the zoom
  coefficient, the viewport doubles, the caption fade's `float textAlpha`
  (PictureViewer.java:759-767, `Ui.RawTextAlpha` and `Ui.TextAlpha`) and
  the comparator's `float` difference `distance2 - distance1`
  (DepthComparator.java:43, `JoglUtil.Compare`) are taken as exact reals. The zoom
  coefficient is the `float` value of 1.1, widened exactly.
- Ui.PictureViewer.AddPicture: follows the corrected slot fill of the
  first findings row, not the hard-coded picture numbers 1 and 2 of
  PictureViewer.java:158 and :160. The code as written is modelled by
  `Ui.PictureAddedAsWritten` and `Ui.SlotFillAsWritten`.
- Ui.PictureViewer.FillWaitingSlot: corrected in the same way as
  `AddPicture`.
- MathEquation.EquationDisplay.AddEquation: follows the corrected
  duplicate guard of the second findings row. The code as written, which
  appends a second wrapper and listener, is modelled by
  `MathEquation.AddedAsWritten`; `RemoveEquation`'s "no longer drawn"
  relies on the corrected guard.
- SwingxUtil.ShadowFactory.SetOpacity: a NaN opacity is not modelled.
- SwingxUtil.ShadowFactory.CreateShadow: the `high` path runs a Java2D
  `ConvolveOp`; only the size of its result is modelled.
- The pixel buffer is a flat `int[]` in the source. It is modelled as an
  `array2` indexed by row and column. Each pixel is the unsigned value
  `alpha * 2^24 + rgb` rather than a signed `int`.
- Property changes. `PropertyChangeSupport` does not fire an event for an
  equal value, and it dispatches to listeners. The model logs one event
  per setter call, and listener dispatch is left out.
- SwingxUtil.UsesFastBlur: the quality hint is compared by string value,
  whereas ShadowFactory.java:78 compares references (`!=`). The two agree
  when callers pass the class constants, as the source's own callers do.
- Billboard overloads. The `float[]` overloads of `setPosition` and
  `setScale` (Billboard.java:63-69, 101-107) are left out. They copy the
  same three values as the `(x, y, z)` forms.
- `Renderable` is not part of this model. Its setters are taken to store
  the value given.
- MathEquation.XPixelToPosition and MathEquation.YPixelToPosition require
  a non-zero panel width or height. In Java a zero size gives Infinity or
  NaN. The position-to-pixel maps need no such requirement.
- MathEquation.EquationDisplay.MouseDragged: requires a press before the
  drag, where the source would throw a `NullPointerException`.
- Equations. `AbstractEquation` is compared by identity, and its
  `compute` and plotting are left out.
- The `HashMap` iteration order of the jitter table is a parameter.
  `KeyOrder` is the order used for concrete results.
- Widths and colours. Image widths and heights are mathematical integers;
  the source's `int` overflow on huge images is left out. Colours are
  ARGB `int` values.

## Findings

| source | as written | input that shows it | evidently intended | confidence | as-written member | corrected member |
|---|---|---|---|---|---|---|
| src/main/java/org/progx/twinkle/ui/PictureViewer.java:155-161 | `addPicture` creates the next-slot quad for picture 1 and the right-slot quad for picture 2, whatever the selection | two pictures, the user moves to the second (selected = 1), a third arrives: the next slot shows picture 1 again instead of picture 2 | create the quad for the new picture, `size - 1`, in the slot waiting for it | high, not executed | Ui.PictureAddedAsWrittenBreaksWindow | Ui.PictureAddedKeepsWindow, Ui.PictureViewer.AddPicture, Ui.PictureViewer.FillWaitingSlot |
| src/org/progx/math/equation/EquationDisplay.java:84 | the duplicate guard asks a list of `DrawableEquation` wrappers whether it contains the `AbstractEquation`, which is never true | `addEquation(e, c)` twice, then `removeEquation(e)`: `e` is still drawn, and still has a listener | skip the add when some wrapper already holds the equation | high, not executed | MathEquation.AddedAsWrittenKeepsRemoved | MathEquation.AddedKeepsDistinct, MathEquation.EquationDisplay.AddEquation |
