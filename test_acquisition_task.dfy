/**
 * The demo device's acquisition task: it fills a builder with a synthetic
 * capture chosen by name (a count-up, all-zero, sine, alternating, random or
 * toggling pattern, or one of the I2C, 1-Wire and Manchester generators),
 * reports progress once per generated sample, and builds the capture.
 */
module DemoDevice {
  import opened Options
  import opened Acquisition
  import opened JavaInts

  /** The sample rate every demo capture starts with: 1 GHz. */
  const SAMPLE_RATE: int := 1_000_000_000
  /** The channels the toggle pattern enables (channels 8 to 15). */
  const TOGGLE_CHANNEL_MASK: int := 0x0000_FF00

  /** The data functions of the demo device's dialog, in the order of its list. */
  datatype DataFunction =
    | CountUp | AllZero | Sine | Alternating2 | Alternating4 | Random
    | I2C | OneWire | Manchester | Toggle
    | Unlisted  // a name that matches none of the list

  /** What the task reads from the dialog: the data function, the sample count and the channel count. */
  datatype TestConfig = TestConfig(dataFunction: DataFunction, dataLength: int, channels: int)

  /** The three data functions handled by a bit-stream generator instead of the sample loop. */
  predicate IsGenerator(f: DataFunction) {
    f == I2C || f == OneWire || f == Manchester
  }

  /** Data functions for which the sample loop adds a sample on every iteration. */
  predicate AddsSamples(f: DataFunction) {
    !IsGenerator(f) && f != Unlisted
  }

  /** Data functions whose values come from floating-point sine or a random source, supplied by the caller. */
  predicate UsesSupplied(f: DataFunction) {
    f == Sine || f == Random
  }

  /** The number of iterations of the sample loop. */
  function LoopCount(dataLength: int): (n: nat)
    ensures dataLength > 0 ==> n == dataLength
    ensures dataLength <= 0 ==> n == 0
  {
    if dataLength > 0 then dataLength else 0
  }

  // ---------------------------------------------------------------------------
  // The patterns
  // ---------------------------------------------------------------------------

  /** The level of the count-up pattern at sample i: (i / 8) & 0xff. */
  function CountUpLevel(i: nat): bv32
    requires i <= INT_MAX
  {
    ((i / 8) as bv32) & 0xff
  }

  /** A count-up sample: bytes 0 and 2 count down, bytes 1 and 3 count up. */
  function CountUpValue(i: nat): bv32
    requires i <= INT_MAX
  {
    var v := CountUpLevel(i);
    (255 - v) | (v << 8) | ((255 - v) << 16) | (v << 24)
  }

  /** Bytes 0 and 2 of the count-up value hold 255 - v, bytes 1 and 3 hold v. */
  lemma CountUpLanes(i: nat)
    requires i <= INT_MAX
    ensures CountUpValue(i) & 0xff == 0xff - CountUpLevel(i)
    ensures (CountUpValue(i) >> 8) & 0xff == CountUpLevel(i)
    ensures (CountUpValue(i) >> 16) & 0xff == 0xff - CountUpLevel(i)
    ensures CountUpValue(i) >> 24 == CountUpLevel(i)
  {
  }

  /** The count-up value is constant over every aligned run of 8 samples. */
  lemma CountUpConstantOnRuns(i: nat, j: nat)
    requires i <= INT_MAX && j <= INT_MAX && i / 8 == j / 8
    ensures CountUpValue(i) == CountUpValue(j)
  {
  }

  /** 0x55 at every multiple of the period, 0xAA elsewhere. */
  function AlternatingValue(i: nat, period: nat): (r: bv32)
    requires period > 0
    ensures r == 0x55 || r == 0xAA
    ensures r == 0x55 <==> i % period == 0
  {
    if i % period == 0 then 0x55 else 0xAA
  }

  /** With period 2, neighbouring samples are bitwise complements. */
  lemma AlternatingNeighboursComplement(i: nat)
    ensures AlternatingValue(i, 2) ^ AlternatingValue(i + 1, 2) == 0xFF
  {
  }

  /** The loop's `state` flag after iteration i of the toggle pattern: it flips at every multiple of 4. */
  function ToggleState(i: nat): bool
  {
    var before := if i == 0 then false else ToggleState(i - 1);
    if i % 4 == 0 then !before else before
  }

  function ToggleValue(i: nat): bv32 {
    if ToggleState(i) then 0x00 else 0x8000
  }

  /** The flag is set exactly in the even-numbered blocks of four samples. */
  lemma {:induction false} ToggleStateByBlock(i: nat)
    ensures ToggleState(i) <==> (i / 4) % 2 == 0
  {
    if i > 0 {
      ToggleStateByBlock(i - 1);
      if i % 4 == 0 {
        assert (i - 1) / 4 == i / 4 - 1;
      } else {
        assert (i - 1) / 4 == i / 4;
      }
    }
  }

  /** The toggle pattern is 0x00 in even blocks of four samples and 0x8000 in odd ones. */
  lemma ToggleValueByBlock(i: nat)
    ensures ToggleValue(i) == 0x00 <==> (i / 4) % 2 == 0
    ensures ToggleValue(i) == 0x8000 <==> (i / 4) % 2 == 1
  {
    ToggleStateByBlock(i);
  }

  /** The value the sample loop adds at index i. */
  function PatternValue(f: DataFunction, i: nat, supplied: seq<bv32>): bv32
    requires AddsSamples(f) && i <= INT_MAX
    requires UsesSupplied(f) ==> i < |supplied|
  {
    match f
    case CountUp => CountUpValue(i)
    case AllZero => 0x00
    case Sine => supplied[i]
    case Alternating2 => AlternatingValue(i, 2)
    case Alternating4 => AlternatingValue(i, 4)
    case Random => supplied[i]
    case Toggle => ToggleValue(i)
  }

  // ---------------------------------------------------------------------------
  // The capture the sample loop produces
  // ---------------------------------------------------------------------------

  /** The samples after n iterations of the loop. */
  function PlainSamples(f: DataFunction, n: nat, supplied: seq<bv32>): seq<Sample>
    requires n <= INT_MAX
    requires UsesSupplied(f) ==> n <= |supplied|
  {
    if !AddsSamples(f) || n == 0 then []
    else PlainSamples(f, n - 1, supplied) + [Sample(n - 1, PatternValue(f, n - 1, supplied))]
  }

  /** Sample k has timestamp k and the pattern's value at k; there is one per iteration. */
  lemma {:induction false} PlainSamplesAt(f: DataFunction, n: nat, supplied: seq<bv32>)
    requires n <= INT_MAX
    requires UsesSupplied(f) ==> n <= |supplied|
    ensures |PlainSamples(f, n, supplied)| == if AddsSamples(f) then n else 0
    ensures forall k :: 0 <= k < |PlainSamples(f, n, supplied)| ==>
      PlainSamples(f, n, supplied)[k] == Sample(k, PatternValue(f, k, supplied))
  {
    if AddsSamples(f) && n > 0 {
      PlainSamplesAt(f, n - 1, supplied);
    }
  }

  /** The builder before the task adds anything: the sample rate and channel count set. */
  function StartOfCapture(channels: int): AcquisitionData {
    EMPTY_CAPTURE.(sampleRate := Some(SAMPLE_RATE), channelCount := Some(channels))
  }

  /** The builder after i iterations of the sample loop. */
  function PlainCaptureAfter(config: TestConfig, supplied: seq<bv32>, i: nat): AcquisitionData
    requires i <= INT_MAX
    requires UsesSupplied(config.dataFunction) ==> i <= |supplied|
  {
    var f := config.dataFunction;
    AcquisitionData(
      if f == Sine && i > 0 then None else Some(SAMPLE_RATE),
      Some(config.channels),
      if f == Toggle && i > 0 then Some(TOGGLE_CHANNEL_MASK) else None,
      None,
      PlainSamples(f, i, supplied))
  }

  /** The trigger position, Java's (int)(dataLength * 0.25): a quarter, truncated toward zero. */
  function TriggerPosition(dataLength: int): (t: int)
    ensures dataLength >= 0 ==> 4 * t <= dataLength < 4 * t + 4
    ensures dataLength < 0 ==> 4 * t - 4 < dataLength <= 4 * t
  {
    if dataLength >= 0 then dataLength / 4 else -((-dataLength) / 4)
  }

  /** The capture the task builds on the sample-loop path. */
  function PlainCapture(config: TestConfig, supplied: seq<bv32>): AcquisitionData
    requires config.dataLength <= INT_MAX
    requires UsesSupplied(config.dataFunction) ==> config.dataLength <= |supplied|
  {
    PlainCaptureAfter(config, supplied, LoopCount(config.dataLength))
      .(triggerPosition := Some(TriggerPosition(config.dataLength)))
  }

  /** What the capture of the sample-loop path holds. */
  lemma PlainCaptureShape(config: TestConfig, supplied: seq<bv32>)
    requires config.dataLength <= INT_MAX
    requires UsesSupplied(config.dataFunction) ==> config.dataLength <= |supplied|
    ensures var d, f, n := PlainCapture(config, supplied), config.dataFunction, LoopCount(config.dataLength);
      && d.channelCount == Some(config.channels)
      && d.sampleRate == (if f == Sine && n > 0 then None else Some(SAMPLE_RATE))
      && d.enabledChannelMask == (if f == Toggle && n > 0 then Some(TOGGLE_CHANNEL_MASK) else None)
      && d.triggerPosition == Some(TriggerPosition(config.dataLength))
      && |d.samples| == (if AddsSamples(f) then n else 0)
      && (forall k :: 0 <= k < |d.samples| ==> d.samples[k] == Sample(k, PatternValue(f, k, supplied)))
      && (forall j, k :: 0 <= j < k < |d.samples| ==> d.samples[j].timestamp < d.samples[k].timestamp)
  {
    PlainSamplesAt(config.dataFunction, LoopCount(config.dataLength), supplied);
  }

  /**
   * On a generator path the capture carries no trigger position, as long as the
   * generator itself never sets one.
   */
  lemma GeneratorCaptureHasNoTrigger(channels: int, generatorCalls: seq<BuilderCall>)
    requires forall k :: 0 <= k < |generatorCalls| ==> !generatorCalls[k].SetTriggerPosition?
    ensures Replay(EMPTY_CAPTURE, [SetSampleRate(SAMPLE_RATE), SetChannelCount(channels)] + generatorCalls)
              .triggerPosition == None
  {
    var calls := [SetSampleRate(SAMPLE_RATE), SetChannelCount(channels)] + generatorCalls;
    forall k | 0 <= k < |calls|
      ensures !calls[k].SetTriggerPosition?
    {
      if k >= 2 {
        assert calls[k] == generatorCalls[k - 2];
      }
    }
    ReplayKeepsTrigger(EMPTY_CAPTURE, calls);
  }

  // ---------------------------------------------------------------------------
  // Progress
  // ---------------------------------------------------------------------------

  /** Multiplying by a natural number keeps the order. */
  lemma MulMonotone(a: int, b: int, n: nat)
    requires a <= b
    ensures a * n <= b * n
  {
    assert b * n - a * n == (b - a) * n;
  }

  /** Euclidean division of i * 100 by n, for i < n, lies in 0..99 and brackets i * 100. */
  lemma QuotientBelowHundred(i: nat, n: nat)
    requires i < n
    ensures var p := (i * 100) / n; 0 <= p <= 99 && p * n <= i * 100 < (p + 1) * n
  {
    var p := (i * 100) / n;
    assert i * 100 == p * n + (i * 100) % n;
    MulMonotone(i + 1, n, 100);
    if p >= 100 {
      MulMonotone(100, p, n);
    }
  }

  /** The progress reported at iteration i of n: the percentage done, rounded down. */
  function ProgressAt(i: nat, n: nat): (p: int)
    requires i < n
    ensures 0 <= p <= 99
    ensures p * n <= i * 100 < (p + 1) * n
  {
    QuotientBelowHundred(i, n);
    (i * 100) / n
  }

  /** The reports after k iterations. */
  function Progress(n: nat, k: nat): (r: seq<int>)
    requires k <= n
    ensures |r| == k
  {
    if k == 0 then [] else Progress(n, k - 1) + [ProgressAt(k - 1, n)]
  }

  /** One report per iteration, each a percentage in 0..99. */
  lemma {:induction false} ProgressAtEachStep(n: nat, k: nat)
    requires k <= n
    ensures |Progress(n, k)| == k
    ensures forall j :: 0 <= j < k ==> Progress(n, k)[j] == ProgressAt(j, n)
  {
    if k > 0 {
      ProgressAtEachStep(n, k - 1);
    }
  }

  /** Progress never goes backwards. */
  lemma ProgressNonDecreasing(i: nat, j: nat, n: nat)
    requires i <= j < n
    ensures ProgressAt(i, n) <= ProgressAt(j, n)
  {
    var p, q := ProgressAt(i, n), ProgressAt(j, n);
    MulMonotone(i, j, 100);
    if p > q {
      MulMonotone(q + 1, p, n);
    }
  }

  // ---------------------------------------------------------------------------
  // The task
  // ---------------------------------------------------------------------------

  /** Makes a generator's calls on the builder, in order. */
  method ReplayCalls(builder: AcquisitionDataBuilder, calls: seq<BuilderCall>)
    requires builder.Valid()
    modifies builder
    ensures builder.Valid()
    ensures builder.log == old(builder.log) + calls && builder.builds == old(builder.builds)
  {
    var k := 0;
    while k < |calls|
      invariant 0 <= k <= |calls|
      invariant builder.Valid() && builder.builds == old(builder.builds)
      invariant builder.log == old(builder.log) + calls[..k]
    {
      builder.Perform(calls[k]);
      assert calls[..k + 1] == calls[..k] + [calls[k]];
      k := k + 1;
    }
    assert calls[..k] == calls;
  }

  /** What one iteration of the sample loop adds to the capture. */
  lemma PlainCaptureNext(config: TestConfig, supplied: seq<bv32>, i: nat)
    requires i + 1 <= INT_MAX
    requires UsesSupplied(config.dataFunction) ==> i + 1 <= |supplied|
    ensures var f, before, after :=
        config.dataFunction, PlainCaptureAfter(config, supplied, i), PlainCaptureAfter(config, supplied, i + 1);
      && after.samples == before.samples + (if AddsSamples(f) then [Sample(i, PatternValue(f, i, supplied))] else [])
      && after.sampleRate == (if f == Sine then None else before.sampleRate)
      && after.enabledChannelMask == (if f == Toggle then Some(TOGGLE_CHANNEL_MASK) else before.enabledChannelMask)
      && after.channelCount == before.channelCount
      && after.triggerPosition == before.triggerPosition
  {
  }

  /** Adds sample i of a pattern whose iteration makes no other call on the builder. */
  method AddPatternSample(builder: AcquisitionDataBuilder, f: DataFunction, supplied: seq<bv32>, i: nat)
    requires f == CountUp || f == AllZero || f == Alternating2 || f == Alternating4 || f == Random
    requires i <= INT_MAX && (f == Random ==> i < |supplied|)
    requires builder.Valid()
    modifies builder
    ensures builder.Valid()
    ensures builder.log == old(builder.log) + [AddSample(i, PatternValue(f, i, supplied))]
    ensures builder.Contents() == Apply(old(builder.Contents()), AddSample(i, PatternValue(f, i, supplied)))
    ensures builder.builds == old(builder.builds)
  {
    var value: bv32;
    match f {
      case CountUp =>
        var v := ((i / 8) as bv32) & 0xff;
        value := (255 - v) | (v << 8) | ((255 - v) << 16) | (v << 24);
      case AllZero =>
        value := 0x00;
      case Alternating2 =>
        value := if i % 2 == 0 then 0x55 else 0xAA;
      case Alternating4 =>
        value := if i % 4 == 0 then 0x55 else 0xAA;
      case Random =>
        value := supplied[i];
    }
    builder.Perform(AddSample(i, value));
  }

  /** The sine iteration: adds the supplied sample i and clears the sample rate. */
  method AddSineSample(builder: AcquisitionDataBuilder, supplied: seq<bv32>, i: nat)
    requires i < |supplied| && builder.Valid()
    modifies builder
    ensures builder.Valid()
    ensures builder.log == old(builder.log) + [AddSample(i, supplied[i]), ClearSampleRate]
    ensures builder.Contents() == old(builder.Contents()).(
      sampleRate := None, samples := old(builder.Contents()).samples + [Sample(i, supplied[i])])
    ensures builder.builds == old(builder.builds)
  {
    builder.Perform(AddSample(i, supplied[i]));
    builder.Perform(ClearSampleRate);
  }

  /** The toggle iteration: flips the flag at every multiple of 4, adds the sample and sets the channel mask. */
  method AddToggleSample(builder: AcquisitionDataBuilder, i: nat, state: bool) returns (state': bool)
    requires state == (i > 0 && ToggleState(i - 1)) && builder.Valid()
    modifies builder
    ensures state' == ToggleState(i) && builder.Valid()
    ensures builder.log == old(builder.log) + [AddSample(i, ToggleValue(i)), SetEnabledChannelMask(TOGGLE_CHANNEL_MASK)]
    ensures builder.Contents() == old(builder.Contents()).(
      enabledChannelMask := Some(TOGGLE_CHANNEL_MASK),
      samples := old(builder.Contents()).samples + [Sample(i, ToggleValue(i))])
    ensures builder.builds == old(builder.builds)
  {
    state' := state;
    if i % 4 == 0 {
      state' := !state';
    }
    assert state' == ToggleState(i);
    var value: bv32 := if state' then 0x00 else 0x8000;
    assert value == ToggleValue(i);
    ghost var before := builder.Contents();
    builder.Perform(AddSample(i, value));
    assert builder.Contents() == before.(samples := before.samples + [Sample(i, value)]);
    builder.Perform(SetEnabledChannelMask(TOGGLE_CHANNEL_MASK));
  }

  /** One iteration of the sample loop: adds sample i and, for sine and toggle, adjusts the settings. */
  method SampleStep(builder: AcquisitionDataBuilder, config: TestConfig, supplied: seq<bv32>, i: nat, state: bool)
    returns (state': bool)
    requires i < LoopCount(config.dataLength) && config.dataLength <= INT_MAX
    requires UsesSupplied(config.dataFunction) ==> config.dataLength <= |supplied|
    requires builder.Valid() && builder.Contents() == PlainCaptureAfter(config, supplied, i)
    requires state == (config.dataFunction == Toggle && i > 0 && ToggleState(i - 1))
    modifies builder
    ensures builder.Valid() && builder.Contents() == PlainCaptureAfter(config, supplied, i + 1)
    ensures state' == (config.dataFunction == Toggle && ToggleState(i))
    ensures old(builder.log) <= builder.log
    ensures builder.builds == old(builder.builds)
  {
    state' := state;
    match config.dataFunction {
      case Sine =>
        AddSineSample(builder, supplied, i);
        PlainCaptureNext(config, supplied, i);
      case Toggle =>
        state' := AddToggleSample(builder, i, state);
        PlainCaptureNext(config, supplied, i);
      case Unlisted =>
      case I2C =>
      case OneWire =>
      case Manchester =>
      case _ =>
        AddPatternSample(builder, config.dataFunction, supplied, i);
        PlainCaptureNext(config, supplied, i);
    }
  }

  /** The sample loop and the trigger position that follows it; returns the progress reports. */
  method SampleLoop(builder: AcquisitionDataBuilder, config: TestConfig, supplied: seq<bv32>)
    returns (progress: seq<int>)
    requires config.dataLength <= INT_MAX
    requires UsesSupplied(config.dataFunction) ==> config.dataLength <= |supplied|
    requires builder.Valid() && builder.Contents() == StartOfCapture(config.channels)
    modifies builder
    ensures builder.Valid() && builder.Contents() == PlainCapture(config, supplied)
    ensures progress == Progress(LoopCount(config.dataLength), LoopCount(config.dataLength))
    ensures old(builder.log) <= builder.log
    ensures builder.builds == old(builder.builds)
  {
    var n := config.dataLength;
    progress := [];
    var state := false;
    var i := 0;
    while i < n
      invariant 0 <= i <= LoopCount(n)
      invariant builder.Valid() && builder.builds == old(builder.builds)
      invariant old(builder.log) <= builder.log
      invariant builder.Contents() == PlainCaptureAfter(config, supplied, i)
      invariant state == (config.dataFunction == Toggle && i > 0 && ToggleState(i - 1))
      invariant progress == Progress(LoopCount(n), i)
    {
      state := SampleStep(builder, config, supplied, i, state);
      progress := progress + [(i * 100) / n];
      i := i + 1;
    }
    assert i == LoopCount(n);
    ghost var looped := builder.Contents();
    builder.Perform(SetTriggerPosition(TriggerPosition(n)));
    assert builder.Contents() == looped.(triggerPosition := Some(TriggerPosition(n)));
  }

  /**
   * call(): fills a fresh builder and builds it once. `supplied` holds the
   * sine or random values, one per sample; `generatorCalls` are the calls the
   * chosen bit-stream generator makes on the builder. Returns the capture, the
   * progress reports in order, and every call made on the builder.
   */
  method Call(config: TestConfig, supplied: seq<bv32>, generatorCalls: seq<BuilderCall>)
    returns (data: AcquisitionData, progress: seq<int>, ghost calls: seq<BuilderCall>, ghost builds: nat)
    requires config.dataLength <= INT_MAX
    requires UsesSupplied(config.dataFunction) ==> config.dataLength <= |supplied|
    ensures builds == 1
    ensures data == Replay(EMPTY_CAPTURE, calls)
    ensures |calls| >= 2 && calls[0] == SetSampleRate(SAMPLE_RATE) && calls[1] == SetChannelCount(config.channels)
    ensures IsGenerator(config.dataFunction) ==>
      && calls == [SetSampleRate(SAMPLE_RATE), SetChannelCount(config.channels)] + generatorCalls
      && progress == []
    ensures !IsGenerator(config.dataFunction) ==>
      && data == PlainCapture(config, supplied)
      && progress == Progress(LoopCount(config.dataLength), LoopCount(config.dataLength))
  {
    var builder := new AcquisitionDataBuilder();
    builder.Perform(SetSampleRate(SAMPLE_RATE));
    builder.Perform(SetChannelCount(config.channels));
    ghost var header := builder.log;
    assert header == [SetSampleRate(SAMPLE_RATE), SetChannelCount(config.channels)];
    progress := [];

    if IsGenerator(config.dataFunction) {
      ReplayCalls(builder, generatorCalls);
    } else {
      assert builder.Contents() == StartOfCapture(config.channels);
      progress := SampleLoop(builder, config, supplied);
    }

    data := builder.Build();
    calls := builder.log;
    builds := builder.builds;
  }
}
