# The signal-display zoom, the demo acquisition task and cursors

This project is a Dafny model of three parts of the OLS logic-analyser client:

- **The zoom controller of the signal diagram** (`zoom_controller.dfy`, module `Zoom`).
  - It holds one (factor, action) state.
  - Every zoom request runs one transition:
    1. propose a factor for the requested action (in, out, all, maximum, default, restore);
    2. snap the factor onto the default level when it is within 1e-6 of it;
    3. clamp it between the minimum level (the whole trace fits the visible width) and the maximum level (the trace fits in Integer.MAX_VALUE pixels);
    4. store the new state;
    5. hand one event to every registered listener.
  - Entry points: the mouse wheel, zoom region, the can-zoom queries and listener registration.
  - The controller is a class with a state field, a listener list and the sequence of notifications made so far. The bounds, the transition and the event are functions, and the methods are proved against them.
- **The demo device's acquisition task** (`test_acquisition_task.dfy`, module `DemoDevice`, over the builder model in `acquisition_data.dfy`, module `Acquisition`).
  - It sets the sample rate and channel count on a fresh builder.
  - It then either lets a bit-stream generator fill the builder, or runs the sample loop. Each pattern (count-up, all-zero, sine, two alternating patterns, random, toggle) adds one sample per iteration and reports progress. The trigger is set at a quarter of the length.
  - Finally it builds the capture once.
  - The builder is a class that records the calls made on it. Its contents are always the replay of those calls.
- **The cursor contract** (`cursor.dfy`, module `Cursors`). A cursor is a class with a fixed index and an optional time stamp, label and colour, each set and cleared by its mutators.

`options.dfy` holds the `Option` type, which stands for Java's nullable references. `java_ints.dfy` holds the bounds of Java's `int`.

Java doubles are modelled as reals. Where the Java arithmetic leaves the reals, the model says so:

- A division by a zero length becomes the `NonFinite` candidate. `Double.compare` orders it above every finite bound, so the clamp sends it to the maximum.
- `ZoomEvent.getFactor` divides the new factor by the old one. A stored factor of 0 is reachable: zoom-all with a visible width of 0, and the MAXIMUM outcome for a length above Integer.MAX_VALUE (`InvertedBoundsStoreZero`). The infinity or NaN that the division then gives is `None` in `RelativeFactor`.
- An `(int)` cast truncates toward zero (`TruncateToInt`).
- Java's unary minus wraps at Integer.MIN_VALUE (`JavaNegate`).

What the controller reads from the diagram and its model during a call is the `View` parameter:

- whether there is data, and the absolute length;
- the visible width, height and centre;
- the preferred width;
- the height the signal elements need on screen.

## Model

| member | source | states |
|---|---|---|
| Zoom.MinZoomLevel | client/src/main/java/nl/lxtreme/ols/client/signaldisplay/ZoomController.java:459-471 | without data the minimum level is 1.0; with data it is the factor at which the whole length exactly fills the visible width |
| Zoom.MaxZoomLevel | client/src/main/java/nl/lxtreme/ols/client/signaldisplay/ZoomController.java:441-451 | without data 1.0; with data the largest whole factor at which the length still fits in Integer.MAX_VALUE pixels (the next whole factor does not) |
| Zoom.DefaultZoomLevel | client/src/main/java/nl/lxtreme/ols/client/signaldisplay/ZoomController.java:421-429 | the default level is at least 1.0 and at least the minimum level, and is one of the two |
| Zoom.BoundsOrdered | client/src/main/java/nl/lxtreme/ols/client/signaldisplay/ZoomController.java:441-471 | minimum level <= maximum level whenever visible width plus length stays within Integer.MAX_VALUE + 1 |
| Zoom.BoundsOrderedExactly | client/src/main/java/nl/lxtreme/ols/client/signaldisplay/ZoomController.java:441-471 | without data the bounds are ordered; with data the minimum is at most the maximum exactly when the visible width is at most (Integer.MAX_VALUE / length) × length |
| Zoom.InvertedBoundsStoreZero | client/src/main/java/nl/lxtreme/ols/client/signaldisplay/ZoomController.java:441-471 | for every view with data, a length above Integer.MAX_VALUE and a positive visible width, the maximum level is 0, below the minimum, and every transition stores either (min, ALL) or (0, MAXIMUM) |
| Zoom.Proposed | client/src/main/java/nl/lxtreme/ols/client/signaldisplay/ZoomController.java:521-552 | IN/OUT multiply the old factor by the ratio, RESTORE keeps it, ALL divides visible width by length (not finite over a zero length), MAXIMUM and DEFAULT take the max and default levels |
| Zoom.Clamp | client/src/main/java/nl/lxtreme/ols/client/signaldisplay/ZoomController.java:571-580 | below the minimum gives (min, ALL); above the maximum or not finite gives (max, MAXIMUM); in range keeps factor and action; the result is within ordered bounds |
| Zoom.Settle | client/src/main/java/nl/lxtreme/ols/client/signaldisplay/ZoomController.java:561-580 | a candidate within 1e-6 of the default level becomes (default, DEFAULT) before the clamp; the result is never negative and within ordered bounds |
| Zoom.Transition | client/src/main/java/nl/lxtreme/ols/client/signaldisplay/ZoomController.java:502-580 | the stored factor is never negative and lies within ordered bounds; the stored action is null only after an in/out step that neither snapped nor clamped, whose factor is ratio times the old one |
| Zoom.TruncateToIntBounds | client/src/main/java/nl/lxtreme/ols/client/signaldisplay/ZoomController.java:529-544 | an (int) cast drops the fraction toward zero: less than 1 away, never larger in magnitude, same sign |
| Zoom.TruncateToInt | client/src/main/java/nl/lxtreme/ols/client/signaldisplay/ZoomController.java:529-544 | Java's (int) cast of a double, truncating toward zero; its bounds are the contract of TruncateToIntBounds |
| Zoom.ProposedWidth | client/src/main/java/nl/lxtreme/ols/client/signaldisplay/ZoomController.java:521-552 | the event width: IN/OUT the larger of the visible width and the truncated preferred width times the ratio, ALL the visible width, RESTORE the preferred width, DEFAULT with data the larger of the visible width and the length, MAXIMUM the maximum width, and DEFAULT or MAXIMUM without data the length |
| Zoom.DefaultWidth | client/src/main/java/nl/lxtreme/ols/client/signaldisplay/ZoomController.java:542-544 | with data, the truncated length times the default level is the larger of the visible width and the length |
| Zoom.MaximumWidth | client/src/main/java/nl/lxtreme/ols/client/signaldisplay/ZoomController.java:537-540 | with data, the widest whole multiple of the length within Integer.MAX_VALUE, (Integer.MAX_VALUE / length) × length, so between 0 and Integer.MAX_VALUE; without data, the length |
| Zoom.Event | client/src/main/java/nl/lxtreme/ols/client/signaldisplay/ZoomController.java:514-593 | the event carries the requested action, the old and the stored factor, the width ProposedWidth gives, a height equal to the larger of the visible height and the screen height, and the given centre or (visible centre x, 0) |
| Zoom.RelativeFactor | client/src/main/java/nl/lxtreme/ols/client/signaldisplay/ZoomController.java:94-97 | the relative factor times the old factor is the new factor; it is undefined exactly when the old factor is 0 and non-negative when both are |
| Zoom.ZoomAllFitsView | client/src/main/java/nl/lxtreme/ols/client/signaldisplay/ZoomController.java:565-575 | zoom-all settles within 1e-6 of the minimum level; its action is ALL exactly when the minimum is at most 1 - 1e-6, and DEFAULT otherwise |
| Zoom.ZoomMaximumReachesMax | client/src/main/java/nl/lxtreme/ols/client/signaldisplay/ZoomController.java:537-580 | zoom-maximum settles within 1e-6 of the maximum level, with action MAXIMUM or DEFAULT |
| Zoom.ZoomDefaultReachesDefault | client/src/main/java/nl/lxtreme/ols/client/signaldisplay/ZoomController.java:542-580 | zoom-default stores (default, DEFAULT), or (max, MAXIMUM) when the default level lies above the maximum |
| Zoom.ZoomInOutRoundTrip | client/src/main/java/nl/lxtreme/ols/client/signaldisplay/ZoomController.java:523-530 | zooming in by 2 and out by 1/2 restores the factor, with action null, when neither step snaps or clamps |
| Zoom.PlainStep | client/src/main/java/nl/lxtreme/ols/client/signaldisplay/ZoomController.java:523-580 | an IN or OUT step whose product neither snaps nor leaves the bounds stores ratio × old factor with action null |
| Zoom.InThenOutRestores | client/src/main/java/nl/lxtreme/ols/client/signaldisplay/ZoomController.java:523-580 | an IN step by r1 and an OUT step by r2 with r1 × r2 = 1 restore the factor with action null when neither step snaps or clamps |
| Zoom.RestoreKeepsFactor | client/src/main/java/nl/lxtreme/ols/client/signaldisplay/ZoomController.java:547-580 | restore keeps a factor that lies within the bounds and is the default level or clear of its snap band |
| Zoom.JavaNegate | client/src/main/java/nl/lxtreme/ols/client/signaldisplay/ZoomController.java:331 | int negation stays in the int range and agrees with true negation modulo 2^32 |
| Zoom.WheelAtMinValueZoomsAll | client/src/main/java/nl/lxtreme/ols/client/signaldisplay/ZoomController.java:329-332 | as written, a rotation of Integer.MIN_VALUE gives a negative ratio, and the zoom-in lands on (min, ALL) |
| Zoom.WheelRatioAsWritten | client/src/main/java/nl/lxtreme/ols/client/signaldisplay/ZoomController.java:324-333 | the ratio as written: 1/(2r) for a positive rotation, -2r for a negative one, and 2 × Integer.MIN_VALUE (negative) at Integer.MIN_VALUE, where the negation wraps |
| Zoom.WheelRatio | client/src/main/java/nl/lxtreme/ols/client/signaldisplay/ZoomController.java:322-334 | a positive rotation r gives ratio 1/(2r), at most 1/2; a negative one gives -2r, at least 2 |
| Zoom.WheelRatioAgrees | client/src/main/java/nl/lxtreme/ols/client/signaldisplay/ZoomController.java:322-334 | the corrected ratio equals the written one for every non-zero int rotation except Integer.MIN_VALUE |
| Zoom.WheelStepsCancel | client/src/main/java/nl/lxtreme/ols/client/signaldisplay/ZoomController.java:322-334 | turning the wheel k notches toward the user (IN) and then k notches away (OUT) restores the factor with action null, when neither step snaps or clamps |
| Zoom.WheelRatiosInverse | client/src/main/java/nl/lxtreme/ols/client/signaldisplay/ZoomController.java:322-334 | the ratios of k notches one way and k the other multiply to 1 |
| Zoom.NotificationOrder | client/src/main/java/nl/lxtreme/ols/client/signaldisplay/ZoomController.java:409-416 | the listener array holds the registrations, last registered first |
| Zoom.Broadcast | client/src/main/java/nl/lxtreme/ols/client/signaldisplay/ZoomController.java:409-416 | one delivery of the event per listener of the array, in array order |
| Zoom.EveryListenerNotified | client/src/main/java/nl/lxtreme/ols/client/signaldisplay/ZoomController.java:409-416 | each registered listener is notified as often as it is registered, and every delivery carries the same event |
| Zoom.LastIndexOf | client/src/main/java/nl/lxtreme/ols/client/signaldisplay/ZoomController.java:297-300 | -1 exactly when the listener is absent; otherwise a position holding it with no later occurrence |
| Zoom.RemoveLast | client/src/main/java/nl/lxtreme/ols/client/signaldisplay/ZoomController.java:297-300 | removing an absent listener changes nothing; otherwise the registration at the last index of the listener goes and the others keep their order |
| Zoom.ZoomController.constructor | client/src/main/java/nl/lxtreme/ols/client/signaldisplay/ZoomController.java:202-208 | a new controller is at (1.0, DEFAULT) with no listeners and no notifications |
| Zoom.ZoomController.AddZoomListener | client/src/main/java/nl/lxtreme/ols/client/signaldisplay/ZoomController.java:218-221 | appends one registration and changes nothing else |
| Zoom.ZoomController.RemoveZoomListener | client/src/main/java/nl/lxtreme/ols/client/signaldisplay/ZoomController.java:297-300 | drops the last registration of the listener and changes nothing else |
| Zoom.ZoomController.GetFactor | client/src/main/java/nl/lxtreme/ols/client/signaldisplay/ZoomController.java:254-263 | the stored factor, never negative |
| Zoom.ZoomController.CanZoomIn | client/src/main/java/nl/lxtreme/ols/client/signaldisplay/ZoomController.java:229-234 | holds iff the factor is below the maximum level |
| Zoom.ZoomController.CanZoomOut | client/src/main/java/nl/lxtreme/ols/client/signaldisplay/ZoomController.java:242-247 | holds iff the factor is above the minimum level |
| Zoom.RefusedExactlyAtBounds | client/src/main/java/nl/lxtreme/ols/client/signaldisplay/ZoomController.java:229-247 | with ordered bounds, after any transition zooming in is refused exactly at the maximum level and zooming out exactly at the minimum level |
| Zoom.ZoomInAtMaximumStays | client/src/main/java/nl/lxtreme/ols/client/signaldisplay/ZoomController.java:229-234 | with ordered bounds, a zoom-in by 2 from the maximum level stays at the maximum level (a maximum of 0 forces the minimum to 0 too, so the zoom-in stores 0 again) |
| Zoom.ZoomOutAtMinimumStays | client/src/main/java/nl/lxtreme/ols/client/signaldisplay/ZoomController.java:242-247 | with ordered bounds, a zoom-out by 1/2 from the minimum level stays at the minimum level |
| Zoom.ZoomController.IsZoomAll | client/src/main/java/nl/lxtreme/ols/client/signaldisplay/ZoomController.java:271-277 | holds iff the stored action is ALL |
| Zoom.ZoomController.IsZoomDefault | client/src/main/java/nl/lxtreme/ols/client/signaldisplay/ZoomController.java:283-289 | holds iff the stored action is DEFAULT |
| Zoom.ZoomController.ProposeFor | client/src/main/java/nl/lxtreme/ols/client/signaldisplay/ZoomController.java:521-552 | the switch computes the proposed factor, the action to store (null for in/out) and the event width of each action |
| Zoom.ZoomController.SnapAndClamp | client/src/main/java/nl/lxtreme/ols/client/signaldisplay/ZoomController.java:561-580 | the snap and the clamp, written as statements, compute exactly the settled state |
| Zoom.ZoomController.Zoom | client/src/main/java/nl/lxtreme/ols/client/signaldisplay/ZoomController.java:500-594 | the new state is the transition of the old one, the listeners are unchanged, and every listener receives the request's event |
| Zoom.ZoomController.FireZoomEvent | client/src/main/java/nl/lxtreme/ols/client/signaldisplay/ZoomController.java:409-416 | appends one delivery per listener, in the listener array's order, and changes nothing else |
| Zoom.ZoomController.RestoreZoomLevel | client/src/main/java/nl/lxtreme/ols/client/signaldisplay/ZoomController.java:305-310 | runs the RESTORE transition |
| Zoom.ZoomController.ZoomWheel | client/src/main/java/nl/lxtreme/ols/client/signaldisplay/ZoomController.java:322-334 | for an int rotation, a positive one zooms OUT and a negative one IN around the pointer; zero changes nothing and notifies no one. The ratio is the corrected WheelRatio, which differs from the written one only at Integer.MIN_VALUE |
| Zoom.ZoomController.ZoomAll | client/src/main/java/nl/lxtreme/ols/client/signaldisplay/ZoomController.java:339-342 | runs the ALL transition |
| Zoom.ZoomController.ZoomDefault | client/src/main/java/nl/lxtreme/ols/client/signaldisplay/ZoomController.java:347-350 | runs the DEFAULT transition |
| Zoom.ZoomController.ZoomIn | client/src/main/java/nl/lxtreme/ols/client/signaldisplay/ZoomController.java:355-358 | runs the IN transition with ratio 2 |
| Zoom.ZoomController.ZoomMaximum | client/src/main/java/nl/lxtreme/ols/client/signaldisplay/ZoomController.java:363-366 | runs the MAXIMUM transition |
| Zoom.ZoomController.ZoomOut | client/src/main/java/nl/lxtreme/ols/client/signaldisplay/ZoomController.java:371-374 | runs the OUT transition with ratio 1/2 |
| Zoom.ZoomController.ZoomRegion | client/src/main/java/nl/lxtreme/ols/client/signaldisplay/ZoomController.java:380-390 | accepts the region iff the points are at least 10 apart; changes no state |
| Zoom.SquaredDistance | client/src/main/java/nl/lxtreme/ols/client/signaldisplay/ZoomController.java:382 | the squared distance between the two points is never negative and is 0 exactly when they coincide |
| Acquisition.Apply | ols.device/src/nl/lxtreme/ols/device/demo/TestAcquisitionTask.java:100-141 | adding a sample appends exactly that sample; only setting the trigger changes the trigger |
| Acquisition.Replay | ols.device/src/nl/lxtreme/ols/device/demo/TestAcquisitionTask.java:63-145 | the builder state after a sequence of calls made in order; its properties are the contracts of ReplayConcat, ReplayKeepsSamples and ReplayKeepsTrigger |
| Acquisition.ReplayConcat | ols.device/src/nl/lxtreme/ols/device/demo/TestAcquisitionTask.java:63-145 | replaying two runs of calls one after the other is replaying them joined |
| Acquisition.ReplayKeepsSamples | ols.device/src/nl/lxtreme/ols/device/demo/TestAcquisitionTask.java:100-141 | replaying calls keeps the samples already there and adds at most one per call |
| Acquisition.ReplayKeepsTrigger | ols.device/src/nl/lxtreme/ols/device/demo/TestAcquisitionTask.java:73-90 | calls that never set the trigger leave it unchanged |
| Acquisition.AcquisitionDataBuilder.constructor | ols.device/src/nl/lxtreme/ols/device/demo/TestAcquisitionTask.java:69 | a new builder is empty and has had no calls |
| Acquisition.AcquisitionDataBuilder.Perform | ols.device/src/nl/lxtreme/ols/device/demo/TestAcquisitionTask.java:70-141 | one call changes exactly what it names and is logged; the contents stay the replay of the log |
| Acquisition.AcquisitionDataBuilder.Build | ols.device/src/nl/lxtreme/ols/device/demo/TestAcquisitionTask.java:144 | returns the contents and counts one build |
| DemoDevice.LoopCount | ols.device/src/nl/lxtreme/ols/device/demo/TestAcquisitionTask.java:100 | the loop runs dataLength times, or not at all for a non-positive length |
| DemoDevice.CountUpValue | ols.device/src/nl/lxtreme/ols/device/demo/TestAcquisitionTask.java:102-106 | the count-up sample; its four bytes are the contract of CountUpLanes |
| DemoDevice.CountUpLanes | ols.device/src/nl/lxtreme/ols/device/demo/TestAcquisitionTask.java:102-106 | bytes 0 and 2 hold 255 - v and bytes 1 and 3 hold v, with v = (i / 8) & 0xff |
| DemoDevice.CountUpConstantOnRuns | ols.device/src/nl/lxtreme/ols/device/demo/TestAcquisitionTask.java:102-106 | the count-up value is the same on every aligned run of 8 samples |
| DemoDevice.AlternatingValue | ols.device/src/nl/lxtreme/ols/device/demo/TestAcquisitionTask.java:116-123 | 0x55 exactly at multiples of the period, 0xAA elsewhere |
| DemoDevice.AlternatingNeighboursComplement | ols.device/src/nl/lxtreme/ols/device/demo/TestAcquisitionTask.java:116-119 | with period 2 neighbouring samples are bitwise complements in the low byte |
| DemoDevice.ToggleState | ols.device/src/nl/lxtreme/ols/device/demo/TestAcquisitionTask.java:128-135 | the loop's toggle flag after iteration i, flipped at every multiple of 4; its closed form is the contract of ToggleStateByBlock |
| DemoDevice.ToggleValue | ols.device/src/nl/lxtreme/ols/device/demo/TestAcquisitionTask.java:128-135 | the toggle sample, 0x00 while the flag is set and 0x8000 otherwise; see ToggleValueByBlock |
| DemoDevice.ToggleStateByBlock | ols.device/src/nl/lxtreme/ols/device/demo/TestAcquisitionTask.java:128-135 | the loop's toggle flag is set exactly in even-numbered blocks of four samples |
| DemoDevice.ToggleValueByBlock | ols.device/src/nl/lxtreme/ols/device/demo/TestAcquisitionTask.java:128-135 | the toggle sample is 0x00 iff (i / 4) is even and 0x8000 iff it is odd |
| DemoDevice.PatternValue | ols.device/src/nl/lxtreme/ols/device/demo/TestAcquisitionTask.java:102-136 | the value each sample pattern adds at iteration i; sine and random take the supplied values |
| DemoDevice.PlainSamples | ols.device/src/nl/lxtreme/ols/device/demo/TestAcquisitionTask.java:100-137 | the samples after n iterations; the contract of PlainSamplesAt states their count and contents |
| DemoDevice.PlainSamplesAt | ols.device/src/nl/lxtreme/ols/device/demo/TestAcquisitionTask.java:100-137 | a sample pattern adds exactly one sample per iteration, sample k having timestamp k and the pattern's value at k |
| DemoDevice.PlainCaptureNext | ols.device/src/nl/lxtreme/ols/device/demo/TestAcquisitionTask.java:100-137 | one iteration appends one sample, clears the rate for sine, sets the 0xFF00 mask for toggle, and touches nothing else |
| DemoDevice.PlainCaptureAfter | ols.device/src/nl/lxtreme/ols/device/demo/TestAcquisitionTask.java:69-137 | the builder state after i iterations of the sample loop; PlainCaptureNext relates consecutive ones |
| DemoDevice.PlainCapture | ols.device/src/nl/lxtreme/ols/device/demo/TestAcquisitionTask.java:69-141 | the sample-loop capture with the trigger set; its contents are the contract of PlainCaptureShape |
| DemoDevice.PlainCaptureShape | ols.device/src/nl/lxtreme/ols/device/demo/TestAcquisitionTask.java:69-141 | the sample-loop capture: rate 1 GHz (cleared after a sine sample), the channel count, the toggle mask, the trigger at a quarter, dataLength samples with strictly increasing timestamps |
| DemoDevice.GeneratorCaptureHasNoTrigger | ols.device/src/nl/lxtreme/ols/device/demo/TestAcquisitionTask.java:73-90 | the generator paths leave the trigger unset as long as the generator does not set it |
| DemoDevice.TriggerPosition | ols.device/src/nl/lxtreme/ols/device/demo/TestAcquisitionTask.java:141 | the trigger is a quarter of the length, truncated toward zero |
| DemoDevice.QuotientBelowHundred | ols.device/src/nl/lxtreme/ols/device/demo/TestAcquisitionTask.java:138 | the percentage (i * 100) / n for i < n lies in 0..99 and brackets i * 100 |
| DemoDevice.ProgressAt | ols.device/src/nl/lxtreme/ols/device/demo/TestAcquisitionTask.java:138 | the progress of iteration i is the percentage done rounded down, in 0..99 |
| DemoDevice.Progress | ols.device/src/nl/lxtreme/ols/device/demo/TestAcquisitionTask.java:138 | the progress reports of the first k iterations: exactly k of them |
| DemoDevice.ProgressAtEachStep | ols.device/src/nl/lxtreme/ols/device/demo/TestAcquisitionTask.java:138 | one progress report per iteration, in iteration order |
| DemoDevice.ProgressNonDecreasing | ols.device/src/nl/lxtreme/ols/device/demo/TestAcquisitionTask.java:138 | progress never goes backwards |
| DemoDevice.ReplayCalls | ols.device/src/nl/lxtreme/ols/device/demo/TestAcquisitionTask.java:73-90 | a generator's calls reach the builder in order and nothing else |
| DemoDevice.AddPatternSample | ols.device/src/nl/lxtreme/ols/device/demo/TestAcquisitionTask.java:102-127 | adds sample i with the pattern's value and makes no other call |
| DemoDevice.AddSineSample | ols.device/src/nl/lxtreme/ols/device/demo/TestAcquisitionTask.java:111-115 | adds the supplied sample i, then clears the sample rate; nothing else changes |
| DemoDevice.AddToggleSample | ols.device/src/nl/lxtreme/ols/device/demo/TestAcquisitionTask.java:128-136 | flips the flag at multiples of 4 so that it equals the toggle state of i, adds the toggle value and sets the 0xFF00 channel mask |
| DemoDevice.SampleStep | ols.device/src/nl/lxtreme/ols/device/demo/TestAcquisitionTask.java:100-137 | one loop iteration takes the builder from the capture after i iterations to the one after i + 1 and advances the toggle flag |
| DemoDevice.SampleLoop | ols.device/src/nl/lxtreme/ols/device/demo/TestAcquisitionTask.java:99-141 | the loop and the trigger produce the sample-loop capture and one progress report per iteration |
| DemoDevice.Call | ols.device/src/nl/lxtreme/ols/device/demo/TestAcquisitionTask.java:63-145 | the first two calls set rate and channel count; the builder is built once; the result is the replay of every call made; the generator paths pass the generator's calls with no progress; the sample paths give the sample-loop capture and its progress |
| Cursors.Cursor.constructor | ols.common/src/nl/lxtreme/ols/common/acquisition/Cursor.java:66-71 | a new cursor has an index in 0..9, is undefined, and has no label or colour |
| Cursors.Cursor.Clear | ols.common/src/nl/lxtreme/ols/common/acquisition/Cursor.java:46-49 | the cursor becomes undefined |
| Cursors.Cursor.SetTimestamp | ols.common/src/nl/lxtreme/ols/common/acquisition/Cursor.java:147-153 | for t >= 0 the cursor becomes defined with time stamp t |
| Cursors.Cursor.SetLabel | ols.common/src/nl/lxtreme/ols/common/acquisition/Cursor.java:139-145 | getLabel returns what was set, and hasLabel holds iff a label was set |
| Cursors.Cursor.SetColor | ols.common/src/nl/lxtreme/ols/common/acquisition/Cursor.java:130-137 | getColor returns what was set, null standing for the default colour |
| Cursors.Cursor.GetIndex | ols.common/src/nl/lxtreme/ols/common/acquisition/Cursor.java:66-71 | the index lies in 0..9 |
| Cursors.Cursor.GetTimestamp | ols.common/src/nl/lxtreme/ols/common/acquisition/Cursor.java:90-98 | only defined cursors have a time stamp, and it is never negative |
| Cursors.Cursor.IsDefined | ols.common/src/nl/lxtreme/ols/common/acquisition/Cursor.java:122-128 | a cursor is defined exactly when it has a time stamp |
| Cursors.Cursor.GetLabel | ols.common/src/nl/lxtreme/ols/common/acquisition/Cursor.java:73-79 | the raw label, present exactly when hasLabel holds |
| Cursors.Cursor.HasLabel | ols.common/src/nl/lxtreme/ols/common/acquisition/Cursor.java:100-106 | whether a label is set |
| Cursors.Cursor.GetColor | ols.common/src/nl/lxtreme/ols/common/acquisition/Cursor.java:58-64 | the colour, or null for the default colour |
| Cursors.Cursor.InArea | ols.common/src/nl/lxtreme/ols/common/acquisition/Cursor.java:108-120 | holds exactly when the cursor is defined and its time stamp is at most delta away from t |
| Cursors.Cursor.Clone | ols.common/src/nl/lxtreme/ols/common/acquisition/Cursor.java:51-56 | a new cursor with the same index, time stamp, label and colour |
| Cursors.WithinDeltaIsDistance | ols.common/src/nl/lxtreme/ols/common/acquisition/Cursor.java:108-120 | being in the area of t within delta means the distance between the time stamps is at most delta |
| Cursors.WithinDeltaWidens | ols.common/src/nl/lxtreme/ols/common/acquisition/Cursor.java:108-120 | a larger delta covers at least the time stamps a smaller one does |

## Left out

- Floating point: factors and ratios are reals. IEEE rounding is not modelled, and neither is the NaN fallback of `getFactor`: the model's stored factor is never NaN. Infinity and NaN appear in two places only: as the `NonFinite` candidate of zoom-all over a zero length, and as the `None` relative factor of an event whose old factor is 0 (`RelativeFactor`).
- Zoom.TruncateToInt: does not model the saturation of Java's `(int)` cast at the int range.
- Zoom.BoundsOrdered: states a simple sufficient condition. The exact condition is the contract of `Zoom.BoundsOrderedExactly`: with data, the visible width is at most (Integer.MAX_VALUE / length) × length. Outside it the clamp stores a factor below the minimum, as `Zoom.InvertedBoundsStoreZero` shows for lengths above Integer.MAX_VALUE.
- The compare-and-set retry loop around the state swap exists only for thread safety. It is modelled as a plain assignment, so concurrent zoom requests are not modelled.
- Swing and AWT: `EventListenerList` is a sequence of listener identities. Listener code is a log of deliveries. Points, dimensions and rectangles are integer records. The diagram and model queries are the `View` input. The order in which `getListeners` returns listeners (last registered first) and the removal of the last registration follow the JDK's listener list, which is not part of this model.
- `ZoomEvent.toString`, `getZoomController` and `getDimension`/`getCenterPoint` beyond the event record are left out.
- A view that reports data with an absolute length of 0 is excluded by `ValidView`. In Java it would make the levels infinite or NaN.
- DemoDevice: the sine values `(int)(half + half * sin(i * factor))` and the values of `Random.nextInt` come in as the `supplied` sequence. Floating-point sine and randomness are not modelled.
- DemoDevice: the I2C, 1-Wire and Manchester generators are not part of this model. Their builder calls come in as `generatorCalls`, and nothing is claimed about their encodings.
- Acquisition: `AcquisitionDataBuilder` is not part of this model. The builder here records calls and replays them; its validation (sample order, channel limits) is not modelled.
- DemoDevice: the dialog that supplies the data function, length and channels is the `TestConfig` input. The progress listener is the returned sequence of reports.
- DemoDevice.ProgressAt: integer division of i * 100 by the length. Java divides the double i * 100.0 and truncates. Below Integer.MAX_VALUE the two agree, because every non-integral quotient lies at least 1/length from the next integer, which is far more than a double's rounding error.
- Cursors: `getLabel(LabelStyle)` is left out, and so is the `LabelStyle` enum. The interface fixes neither the text nor the composition, only that the result is never null. `compareTo` (ordering) is left out for the same reason.
- Cursors: the interface does not say what `clear()` does to label and colour. The model keeps them. It also does not say what `inArea` answers for an undefined cursor; the model answers false.

## Findings

| source | as written | input that shows it | evidently intended | confidence | as-written member | corrected member |
|---|---|---|---|---|---|---|
| client/src/main/java/nl/lxtreme/ols/client/signaldisplay/ZoomController.java:329-332 | the zoom-in ratio is `-aRotation * 2.0`, and `-aRotation` is int negation, which wraps | a wheel rotation of Integer.MIN_VALUE: the ratio is -4294967296, the proposed factor is negative, and the zoom-in ends at the minimum level with action ALL | a zoom-in by 2 × 2147483648, clamped to the maximum level | not executed | Zoom.WheelAtMinValueZoomsAll | Zoom.WheelRatio |
