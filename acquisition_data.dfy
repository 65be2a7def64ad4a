/**
 * What a capture looks like to the code that fills it in: the settings an
 * acquisition-data builder has been given and the samples added to it, in
 * order. The builder's own validation is not part of this model; it records.
 */
module Acquisition {
  import opened Options

  /** One sample: a timestamp and the 32 channel bits, as Java's int bit pattern. */
  datatype Sample = Sample(timestamp: int, value: bv32)

  /**
   * The builder's visible state, and the capture it builds. `None` means the
   * setting was never given (or, for the sample rate, was cleared).
   */
  datatype AcquisitionData = AcquisitionData(
    sampleRate: Option<int>,
    channelCount: Option<int>,
    enabledChannelMask: Option<int>,
    triggerPosition: Option<int>,
    samples: seq<Sample>)

  const EMPTY_CAPTURE: AcquisitionData := AcquisitionData(None, None, None, None, [])

  /** One call made on a builder. */
  datatype BuilderCall =
    | SetSampleRate(rate: int)
    | ClearSampleRate
    | SetChannelCount(count: int)
    | SetEnabledChannelMask(mask: int)
    | AddSample(timestamp: int, value: bv32)
    | SetTriggerPosition(position: int)

  /** The builder state after one call; each call changes only the part it names. */
  function Apply(d: AcquisitionData, c: BuilderCall): (r: AcquisitionData)
    ensures c.AddSample? ==> r.samples == d.samples + [Sample(c.timestamp, c.value)]
    ensures !c.AddSample? ==> r.samples == d.samples
    ensures c.SetTriggerPosition? ==> r.triggerPosition == Some(c.position)
    ensures !c.SetTriggerPosition? ==> r.triggerPosition == d.triggerPosition
  {
    match c
    case SetSampleRate(rate) => d.(sampleRate := Some(rate))
    case ClearSampleRate => d.(sampleRate := None)
    case SetChannelCount(count) => d.(channelCount := Some(count))
    case SetEnabledChannelMask(mask) => d.(enabledChannelMask := Some(mask))
    case AddSample(t, value) => d.(samples := d.samples + [Sample(t, value)])
    case SetTriggerPosition(position) => d.(triggerPosition := Some(position))
  }

  /** The builder state after a sequence of calls, made in order. */
  function Replay(d: AcquisitionData, calls: seq<BuilderCall>): AcquisitionData
  {
    if calls == [] then d else Apply(Replay(d, calls[..|calls| - 1]), calls[|calls| - 1])
  }

  /** Replaying two runs of calls one after the other is replaying them joined. */
  lemma {:induction false} ReplayConcat(d: AcquisitionData, first: seq<BuilderCall>, second: seq<BuilderCall>)
    ensures Replay(d, first + second) == Replay(Replay(d, first), second)
  {
    if second != [] {
      var last := |second| - 1;
      assert (first + second)[..|first + second| - 1] == first + second[..last];
      ReplayConcat(d, first, second[..last]);
    } else {
      assert first + second == first;
    }
  }

  /** Replaying keeps the samples already there and adds at most one per call. */
  lemma {:induction false} ReplayKeepsSamples(d: AcquisitionData, calls: seq<BuilderCall>)
    ensures d.samples <= Replay(d, calls).samples
    ensures |Replay(d, calls).samples| <= |d.samples| + |calls|
  {
    if calls != [] {
      ReplayKeepsSamples(d, calls[..|calls| - 1]);
    }
  }

  /** Calls that never set the trigger leave it as it was. */
  lemma {:induction false} ReplayKeepsTrigger(d: AcquisitionData, calls: seq<BuilderCall>)
    requires forall k :: 0 <= k < |calls| ==> !calls[k].SetTriggerPosition?
    ensures Replay(d, calls).triggerPosition == d.triggerPosition
  {
    if calls != [] {
      ReplayKeepsTrigger(d, calls[..|calls| - 1]);
    }
  }

  /** A builder, filled in by one producer and built at the end. */
  class AcquisitionDataBuilder {
    var sampleRate: Option<int>
    var channelCount: Option<int>
    var enabledChannelMask: Option<int>
    var triggerPosition: Option<int>
    var samples: seq<Sample>
    /** How many times build() has been called. */
    var builds: nat
    /** Every call made on the builder so far, in order. */
    ghost var log: seq<BuilderCall>

    function Contents(): AcquisitionData
      reads this
    {
      AcquisitionData(sampleRate, channelCount, enabledChannelMask, triggerPosition, samples)
    }

    /** The builder holds exactly what its calls, replayed from empty, put there. */
    ghost predicate Valid()
      reads this
    {
      Contents() == Replay(EMPTY_CAPTURE, log)
    }

    constructor ()
      ensures Valid() && Contents() == EMPTY_CAPTURE && log == [] && builds == 0
    {
      sampleRate, channelCount, enabledChannelMask, triggerPosition := None, None, None, None;
      samples := [];
      builds := 0;
      log := [];
    }

    /** Makes one call on the builder. */
    method Perform(c: BuilderCall)
      requires Valid()
      modifies this
      ensures Valid()
      ensures Contents() == Apply(old(Contents()), c)
      ensures log == old(log) + [c] && builds == old(builds)
    {
      assert (log + [c])[..|log|] == log;
      log := log + [c];
      match c {
        case SetSampleRate(rate) => sampleRate := Some(rate);
        case ClearSampleRate => sampleRate := None;
        case SetChannelCount(count) => channelCount := Some(count);
        case SetEnabledChannelMask(mask) => enabledChannelMask := Some(mask);
        case AddSample(t, value) => samples := samples + [Sample(t, value)];
        case SetTriggerPosition(position) => triggerPosition := Some(position);
      }
    }

    method Build() returns (d: AcquisitionData)
      requires Valid()
      modifies this
      ensures Valid()
      ensures d == old(Contents()) && Contents() == old(Contents()) && log == old(log)
      ensures builds == old(builds) + 1
    {
      d := Contents();
      builds := builds + 1;
    }
  }
}
