/** `NoiseGate.apply_gate` (noise_gate.py): sample counts from milliseconds,
    the optional low-pass detection copy, the per-channel gate, and the
    stereo step.

    The low-pass filter of `_apply_frequency_gate` is a function parameter
    that only has to preserve length. The channel gain is the smoothed
    closed-form mask of the envelope of the (possibly filtered) data; the
    output multiplies the (possibly filtered) data by that gain. */
module NoiseGateEngine {
  import opened Audio
  import opened GateEnvelope

  /** `stereo_link == "LinkStereo"` shares the left channel's gain; every
      other string gates the right channel on its own. */
  datatype StereoLink = LinkStereo | Independent

  function StereoLinkOf(name: string): (link: StereoLink)
    ensures link == LinkStereo <==> name == "LinkStereo"
  {
    if name == "LinkStereo" then LinkStereo else Independent
  }

  /** The values `process_channel` reads from the enclosing `apply_gate`,
      after the dB and millisecond conversions. */
  datatype GateSettings = GateSettings(
    threshold: real,
    reduction: real,
    attackSamples: int,
    decaySamples: int,
    holdSamples: int,
    mode: GateMode,
    gateFreq: real)

  ghost predicate LengthPreserving(filter: seq<real> -> seq<real>)
  {
    forall x :: |filter(x)| == |x|
  }

  /** `_apply_frequency_gate`: the low-passed copy when `gate_freq > 0`,
      otherwise the channel itself. */
  function FrequencyGate(data: seq<real>, gateFreq: real, lowPass: seq<real> -> seq<real>): (r: seq<real>)
    requires LengthPreserving(lowPass)
    ensures |r| == |data|
    ensures gateFreq <= 0.0 ==> r == data
  {
    if gateFreq > 0.0 then lowPass(data) else data
  }

  /** The gain trajectory of one channel: the smoothed gate mask of the
      envelope of the detection copy. */
  ghost function ChannelGain(data: seq<real>, s: GateSettings, lowPass: seq<real> -> seq<real>)
    : Outcome<seq<real>>
    requires LengthPreserving(lowPass)
  {
    var envelope := Magnitudes(FrequencyGate(data, s.gateFreq, lowPass));
    var mask := GateMaskSpec(envelope, s.threshold, s.holdSamples, s.mode, s.reduction);
    Smooth(mask, s.attackSamples, s.decaySamples, s.reduction, |mask|)
  }

  /** `signal * gain`, elementwise. */
  function Gated(signal: seq<real>, gain: seq<real>): (r: seq<real>)
    requires |signal| == |gain|
    ensures |r| == |signal|
  {
    seq(|signal|, i requires 0 <= i < |signal| => signal[i] * gain[i])
  }

  /** What `process_channel` returns, or the exception it raises. */
  ghost function ChannelOutput(data: seq<real>, s: GateSettings, lowPass: seq<real> -> seq<real>)
    : Outcome<seq<real>>
    requires LengthPreserving(lowPass)
  {
    match ChannelGain(data, s, lowPass)
    case Raised(e) => Raised(e)
    case Ok(gain) => Ok(Gated(FrequencyGate(data, s.gateFreq, lowPass), gain))
  }

  /** noise_gate.py:57-94: the detection copy and its gain trajectory. */
  method ComputeChannelGain(data: seq<real>, s: GateSettings, lowPass: seq<real> -> seq<real>)
    returns (filtered: seq<real>, gain: Outcome<seq<real>>)
    requires LengthPreserving(lowPass)
    ensures filtered == FrequencyGate(data, s.gateFreq, lowPass)
    ensures gain == ChannelGain(data, s, lowPass)
    ensures gain.Ok? ==> |gain.value| == |data|
  {
    filtered := FrequencyGate(data, s.gateFreq, lowPass);
    var envelope := Magnitudes(filtered);
    var mask := ComputeGateMask(envelope, s.threshold, s.holdSamples, s.mode, s.reduction);
    gain := SmoothMask(mask, s.attackSamples, s.decaySamples, s.reduction);
  }

  /** `process_channel` (noise_gate.py:55-96). */
  method ProcessChannel(data: seq<real>, s: GateSettings, lowPass: seq<real> -> seq<real>)
    returns (r: Outcome<seq<real>>)
    requires LengthPreserving(lowPass)
    ensures r == ChannelOutput(data, s, lowPass)
  {
    var filtered, gain := ComputeChannelGain(data, s, lowPass);
    if gain.Raised? {
      return Raised(gain.exception);
    }
    r := Ok(Gated(filtered, gain.value));
  }

  /** With positive counts and `0 < reduction <= 1` (the only reductions
      `10 ** (db / 20)` yields for `db <= 0`) the gate never raises and never
      amplifies: each output sample is the detection sample scaled by a gain
      in (0, 1]. */
  lemma GateNeverAmplifies(data: seq<real>, s: GateSettings, lowPass: seq<real> -> seq<real>)
    requires LengthPreserving(lowPass)
    requires s.attackSamples > 0 && s.decaySamples > 0 && 0.0 < s.reduction <= 1.0
    ensures ChannelOutput(data, s, lowPass).Ok?
    ensures var out := ChannelOutput(data, s, lowPass).value;
      var filtered := FrequencyGate(data, s.gateFreq, lowPass);
      |out| == |data| &&
      forall i :: 0 <= i < |data| ==>
        (Abs(out[i]) <= Abs(filtered[i]) && (filtered[i] != 0.0 ==> out[i] != 0.0))
  {
    var filtered := FrequencyGate(data, s.gateFreq, lowPass);
    var mask := GateMaskSpec(Magnitudes(filtered), s.threshold, s.holdSamples, s.mode, s.reduction);
    SmoothRange(mask, s.attackSamples, s.decaySamples, s.reduction, |mask|);
    assert ChannelGain(data, s, lowPass) == Smooth(mask, s.attackSamples, s.decaySamples, s.reduction, |mask|);
    var gain := ChannelGain(data, s, lowPass).value;
    var out := ChannelOutput(data, s, lowPass).value;
    assert out == Gated(filtered, gain);
    forall i | 0 <= i < |data|
      ensures Abs(out[i]) <= Abs(filtered[i]) && (filtered[i] != 0.0 ==> out[i] != 0.0)
    {
      assert out[i] == filtered[i] * gain[i];
      assert 0.0 < gain[i] <= 1.0;
      UnitGain(filtered[i], gain[i]);
    }
  }

  /** Scaling by a gain in (0, 1] keeps the sign and does not grow the
      magnitude. */
  lemma UnitGain(x: real, gain: real)
    requires 0.0 < gain <= 1.0
    ensures Abs(x * gain) <= Abs(x) && (x != 0.0 ==> x * gain != 0.0)
  {
    if x >= 0.0 {
      assert x * gain <= x * 1.0;
    } else {
      assert x * gain >= x * 1.0;
    }
  }

  /** Silence in gives silence out, of the same length, whenever no division
      by zero occurs and the detection copy is silent too (always so without
      the low-pass, since `FrequencyGate` then returns the input). */
  lemma SilenceStaysSilent(data: seq<real>, s: GateSettings, lowPass: seq<real> -> seq<real>)
    requires LengthPreserving(lowPass)
    requires s.attackSamples != 0 && s.decaySamples != 0
    requires forall i :: 0 <= i < |data| ==> data[i] == 0.0
    requires forall i :: 0 <= i < |data| ==> FrequencyGate(data, s.gateFreq, lowPass)[i] == 0.0
    ensures ChannelOutput(data, s, lowPass).Ok?
    ensures var out := ChannelOutput(data, s, lowPass).value;
      |out| == |data| && forall i :: 0 <= i < |out| ==> out[i] == 0.0
  {
    var mask := GateMaskSpec(Magnitudes(FrequencyGate(data, s.gateFreq, lowPass)), s.threshold, s.holdSamples, s.mode, s.reduction);
    SmoothDefined(mask, s.attackSamples, s.decaySamples, s.reduction, |mask|);
  }

  /** The right channel as noise_gate.py:105-107 computes it in IEEE
      arithmetic: `right * (left' / right)`, where dividing by a zero sample
      yields an infinity or NaN and multiplying that by zero yields NaN. */
  datatype Sample = Number(x: real) | NotANumber

  function LinkStereoAsWritten(right: seq<real>, gatedLeft: seq<real>): (r: seq<Sample>)
    requires |right| == |gatedLeft|
    ensures |r| == |right|
    ensures forall i :: 0 <= i < |right| ==>
      r[i] == if right[i] != 0.0 then Number(gatedLeft[i]) else NotANumber
  {
    seq(|right|, i requires 0 <= i < |right| =>
      if right[i] == 0.0 then NotANumber else Number(right[i] * (gatedLeft[i] / right[i])))
  }

  /** As written, the linked right channel is the gated left channel: with a
      left sample 1.0, a gain 0.5 and a right sample 0.25, the right output is
      0.5, not the 0.125 that applying the left gain to it would give. */
  lemma LinkStereoAsWrittenCopiesLeft()
    ensures LinkStereoAsWritten([0.25], Gated([1.0], [0.5])) == [Number(0.5)]
    ensures Gated([0.25], [0.5]) == [0.125]
  {
    assert Gated([1.0], [0.5])[0] == 0.5;
  }

  /** The stereo part of `apply_gate` (noise_gate.py:98-109), with the linked
      case corrected to apply the left channel's gain trajectory to the
      right channel as it is, which the linked branch never filters; the
      independent case runs `process_channel` on each channel. */
  ghost function StereoOutput(left: seq<real>, right: seq<real>, s: GateSettings,
                              lowPass: seq<real> -> seq<real>, link: StereoLink)
    : Outcome<(seq<real>, seq<real>)>
    requires LengthPreserving(lowPass) && |left| == |right|
  {
    match link
    case LinkStereo =>
      (match ChannelGain(left, s, lowPass)
       case Raised(e) => Raised(e)
       case Ok(gain) =>
         Ok((Gated(FrequencyGate(left, s.gateFreq, lowPass), gain), Gated(right, gain))))
    case Independent =>
      (match ChannelOutput(left, s, lowPass)
       case Raised(e) => Raised(e)
       case Ok(l) =>
         (match ChannelOutput(right, s, lowPass)
          case Raised(e) => Raised(e)
          case Ok(r) => Ok((l, r))))
  }

  /** The stereo step on its own, with the `stereo_link` string of
      `apply_gate`. */
  method GateStereo(left: seq<real>, right: seq<real>, s: GateSettings,
                    lowPass: seq<real> -> seq<real>, stereoLink: string)
    returns (r: Outcome<(seq<real>, seq<real>)>)
    requires LengthPreserving(lowPass) && |left| == |right|
    ensures r == StereoOutput(left, right, s, lowPass, StereoLinkOf(stereoLink))
  {
    var link := StereoLinkOf(stereoLink);
    var leftFiltered, leftGain := ComputeChannelGain(left, s, lowPass);
    if leftGain.Raised? {
      return Raised(leftGain.exception);
    }
    var leftOut := Gated(leftFiltered, leftGain.value);
    if link == LinkStereo {
      r := Ok((leftOut, Gated(right, leftGain.value)));
    } else {
      var rightOut := ProcessChannel(right, s, lowPass);
      if rightOut.Raised? {
        return Raised(rightOut.exception);
      }
      r := Ok((leftOut, rightOut.value));
    }
  }

  /** Under LinkStereo one gain trajectory, the left channel's, multiplies
      the left detection copy and the right channel sample by sample,
      whatever the right channel holds. */
  lemma LinkedChannelsShareGain(left: seq<real>, right: seq<real>, s: GateSettings,
                                lowPass: seq<real> -> seq<real>, i: nat)
    requires LengthPreserving(lowPass) && |left| == |right| && i < |left|
    requires StereoOutput(left, right, s, lowPass, LinkStereo).Ok?
    ensures ChannelGain(left, s, lowPass).Ok?
    ensures var out := StereoOutput(left, right, s, lowPass, LinkStereo).value;
      var gain := ChannelGain(left, s, lowPass).value;
      |out.0| == |out.1| == |left| &&
      out.0[i] == FrequencyGate(left, s.gateFreq, lowPass)[i] * gain[i] &&
      out.1[i] == right[i] * gain[i]
  {
  }

  /** Under LinkStereo the left output is exactly what gating the left
      channel alone gives. */
  lemma LinkedLeftIsIndependentLeft(left: seq<real>, right: seq<real>, s: GateSettings,
                                    lowPass: seq<real> -> seq<real>)
    requires LengthPreserving(lowPass) && |left| == |right|
    ensures StereoOutput(left, right, s, lowPass, LinkStereo).Ok? <==> ChannelOutput(left, s, lowPass).Ok?
    ensures StereoOutput(left, right, s, lowPass, LinkStereo).Ok? ==>
      StereoOutput(left, right, s, lowPass, LinkStereo).value.0 == ChannelOutput(left, s, lowPass).value
  {
  }

  /** The noise gate on the buffer the loader produced. The loader keeps only
      the first channel of a stereo file (audio_processor.py:11-12), so
      `is_stereo` (noise_gate.py:10) is always false and the gate runs on
      that one channel; the stereo step is `GateStereo` above. */
  class NoiseGate {
    const sampleRate: int
    var audioData: seq<real>

    constructor (sampleRate: int, samples: seq<real>)
      ensures this.sampleRate == sampleRate && audioData == samples
    {
      this.sampleRate := sampleRate;
      audioData := samples;
    }

    /** `apply_gate` with `threshold` and `reduction` already converted from
        dB. `stereoLink` is consulted only for stereo input, which does not
        occur. On an exception the channel is left as it was. */
    method ApplyGate(threshold: real, reduction: real, attackMs: real, decayMs: real,
                     holdMs: real, gateFreq: real, mode: string, stereoLink: string,
                     lowPass: seq<real> -> seq<real>)
      returns (r: Outcome<()>)
      requires LengthPreserving(lowPass)
      modifies this
      ensures var s := GateSettings(threshold, reduction, MsToSamples(sampleRate, attackMs),
                                    MsToSamples(sampleRate, decayMs), MsToSamples(sampleRate, holdMs),
                                    ModeOf(mode), gateFreq);
        match ChannelOutput(old(audioData), s, lowPass)
        case Ok(out) => r == Ok(()) && audioData == out
        case Raised(e) => r == Raised(e) && audioData == old(audioData)
    {
      var attackSamples := MsToSamples(sampleRate, attackMs);
      var decaySamples := MsToSamples(sampleRate, decayMs);
      var holdSamples := MsToSamples(sampleRate, holdMs);
      var s := GateSettings(threshold, reduction, attackSamples, decaySamples, holdSamples,
                            ModeOf(mode), gateFreq);
      var left := ProcessChannel(audioData, s, lowPass);
      if left.Raised? {
        return Raised(left.exception);
      }
      audioData := left.value;
      r := Ok(());
    }
  }
}
