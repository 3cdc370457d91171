# Noise gate and declicker, modelled in Dafny

This project models the two signal-processing cores of a small Python audio
restoration tool.

- **The noise gate** (`NoiseGate.apply_gate`). It converts the attack, decay
  and hold times from milliseconds to whole samples. Then, per channel:
  - it optionally low-passes the channel for detection;
  - a hold-counter state machine turns the envelope `|x|` into a gate mask
    of 1 (open or held) and a closed gain (`reduction` in "Gate" mode,
    `1 - reduction` otherwise);
  - a linear attack/decay recurrence smooths the mask, starting from 0;
  - the (possibly filtered) channel is multiplied by the smoothed gain.

  A stereo step links or separately gates a right channel.
- **The declicker** (`DeClicker.remove_clicks`). Each pass splits the signal
  into frequency bands and finds the peaks of every band once. Per peak, it
  replaces a clamped window around the peak, in place, by a linear
  interpolation between the window's end samples. When the window is longer
  than the crossfade, fade ramps are multiplied onto the edges. Later windows
  read what earlier repairs wrote. The processed bands are summed back into
  the signal, and passes are chained.

Samples are Dafny `real`s. The band-pass and low-pass filters are function
parameters that only have to preserve length. scipy's `find_peaks` is a
function parameter that returns ascending indices of interior samples.
Python exceptions are values: `Outcome.Raised(ZeroDivisionError | IndexError
| ValueError)`.

Modules and files:

| file | module | contents |
|---|---|---|
| `audio.dfy` | `Audio` | exceptions, `int()` on floats, millisecond conversion, `np.abs`, `np.linspace` |
| `gate_envelope.dfy` | `GateEnvelope` | gate mask (closed form and loop), smoothing recurrence (function and loop) |
| `noise_gate.dfy` | `NoiseGateEngine` | `process_channel`, the stereo step, class `NoiseGate` |
| `click_repair.dfy` | `ClickRepair` | window, interpolation and crossfade, in-place repair of one band |
| `declicker.dfy` | `DeclickEngine` | band split and merge, passes, class `DeClicker` |

Three behaviours of the code worth noting:

- The gain multiplies the low-passed data when `gate_freq > 0`, not the
  original channel.
- A gain that has reached 1 does not stay at 1 under a fully open mask.
  `1 > 1` is false, so the next step is a decay step. The gain swings
  between 1 and `1 - 1/decay` (`SustainedTone`).
- The "crossfade" multiplies the ramps onto the interpolation. It does not
  blend the interpolation with the original audio, so the first sample of a
  faded window becomes 0.

## Model

| member | source | states |
|---|---|---|
| Audio.Magnitudes | noise_gate.py:60 | the envelope has the signal's length; each entry is non-negative and is the sample or its negation |
| Audio.Truncate | noise_gate.py:51 | Python's `int()` of a float is the integer next to it toward zero |
| Audio.MsToSamples | noise_gate.py:51-53 | `int(sample_rate * ms / 1000)` times 1000 lies within 1000 of `sample_rate * ms`, on the side toward zero |
| Audio.WholeMsToSamples | noise_gate.py:51-53 | for whole milliseconds the count is `(sample_rate * ms) div 1000`, rounded toward zero for negative products |
| Audio.Linspace | declicker.py:87 | `np.linspace(a, b, n)` has exactly `n` values |
| Audio.LinspaceValue | declicker.py:87 | definition, no contract of its own: value `k` of the ramp, `k * step + start`, with the last value `stop` and a single value `start` |
| Audio.LinspaceEnds | declicker.py:87 | a ramp starts at `a` and, with two or more values, ends at `b` |
| Audio.LinspaceAt | declicker.py:87 | value `k` of a ramp of `n >= 2` values is `a + (k / (n - 1)) * (b - a)` |
| Audio.LinspaceWithin | declicker.py:87 | every ramp value lies between the two ends |
| Audio.LinspaceConstant | declicker.py:87 | a ramp between equal ends is constant |
| GateEnvelope.ModeOf | noise_gate.py:79-82 | the mode is "Gate" exactly for the string "Gate"; every other string ducks |
| GateEnvelope.GateMaskSpec | noise_gate.py:63 | the mask has the envelope's length |
| GateEnvelope.ClosedGain | noise_gate.py:79-82 | definition, no contract of its own: `reduction` in "Gate" mode, `1 - reduction` otherwise |
| GateEnvelope.HoldAfter | noise_gate.py:67-76 | definition, no contract of its own: `hold_counter` after the first `n` samples |
| GateEnvelope.HoldAtLeast | noise_gate.py:67-76 | the counter is at least `k >= 1` iff some of the last `hold - k + 1` envelope samples is above the threshold |
| GateEnvelope.HoldBounds | noise_gate.py:67-76 | the hold counter stays in `[0, hold_samples]` |
| GateEnvelope.HoldCountdown | noise_gate.py:72-76 | after the last trigger the counter is `hold_samples` and drops by one per sample down to 0 |
| GateEnvelope.OpenBranch | noise_gate.py:69-82 | the loop takes an open branch (line 70 or 74) at `i` iff some `j` in `[i - hold, i]` is above the threshold; a positive counter means the previous sample was open |
| GateEnvelope.AboveThresholdOpens | noise_gate.py:70-73 | a sample above the threshold gets mask 1 and resets the counter to `hold_samples` |
| GateEnvelope.ComputeGateMask | noise_gate.py:63-82 | the loop's mask equals the closed form, and every entry is 1 or the closed gain |
| GateEnvelope.SmoothStep | noise_gate.py:87-94 | definition, no contract of its own: one attack or decay step, or the ZeroDivisionError of the branch taken |
| GateEnvelope.Smooth | noise_gate.py:85-94 | the recurrence gives one gain per sample; it raises only ZeroDivisionError, and only for a zero attack or decay count |
| GateEnvelope.SmoothRaisedPersists | noise_gate.py:86-94 | once the recurrence raises, every longer run raises the same exception |
| GateEnvelope.SmoothPrefix | noise_gate.py:86-94 | a successful run extends every shorter run |
| GateEnvelope.SmoothDefined | noise_gate.py:89-93 | non-zero attack and decay counts never divide by zero |
| GateEnvelope.SmoothAt | noise_gate.py:86-94 | gain `i` is an attack step from gain `i - 1` (0 at `i = 0`) when the mask is above it, and a decay step otherwise |
| GateEnvelope.AttackDecayLimits | noise_gate.py:87-94 | an attack step rises by at most `1/attack` and caps at 1; a decay step falls by at most `1/decay` and never below `reduction` |
| GateEnvelope.SmoothRange | noise_gate.py:85-94 | with positive counts and `0 < reduction <= 1`, every gain lies in `(0, 1]` |
| GateEnvelope.SustainedTone | noise_gate.py:87-94 | under an all-open mask the gain is at least `min(1 - 1/decay, (i + 1)/attack)`, so at least `1 - 1/decay` after the ramp |
| GateEnvelope.SmoothMask | noise_gate.py:85-94 | the in-place loop, which reads `smoothed_mask[-1]` at `i = 0`, computes the recurrence or raises its exception |
| NoiseGateEngine.StereoLinkOf | noise_gate.py:103 | the channels are linked exactly for the string "LinkStereo" |
| NoiseGateEngine.FrequencyGate | noise_gate.py:15-21 | the detection copy has the channel's length and is the channel itself when `gate_freq <= 0` |
| NoiseGateEngine.ChannelGain | noise_gate.py:55-94 | definition, no contract of its own: the smoothed closed-form mask of the detection copy's envelope |
| NoiseGateEngine.Gated | noise_gate.py:96 | `data * smoothed_mask` keeps the length (otherwise a definition) |
| NoiseGateEngine.ChannelOutput | noise_gate.py:55-96 | definition, no contract of its own: the detection copy times the gain, or the smoothing's exception |
| NoiseGateEngine.ComputeChannelGain | noise_gate.py:57-94 | the loops compute the smoothed closed-form mask of the detection copy's envelope |
| NoiseGateEngine.ProcessChannel | noise_gate.py:55-96 | `process_channel` returns the detection copy times the smoothed gain, or the smoothing's exception |
| NoiseGateEngine.GateNeverAmplifies | noise_gate.py:96 | with positive counts and `0 < reduction <= 1`, output sample `i` is no larger in magnitude than the detection sample, and non-zero where it is non-zero |
| NoiseGateEngine.SilenceStaysSilent | noise_gate.py:55-96 | silence in gives silence out, of the same length, whenever the detection copy is silent too (always so for `gate_freq <= 0`, where it is the input itself) and no division by zero occurs |
| NoiseGateEngine.LinkStereoAsWritten | noise_gate.py:105-107 | as written, the linked right channel is the gated left channel where the right sample is non-zero, and NaN where it is zero |
| NoiseGateEngine.LinkStereoAsWrittenCopiesLeft | noise_gate.py:103-107 | a one-sample case where the as-written right output (0.5) differs from the left gain applied to the right channel (0.125) |
| NoiseGateEngine.StereoOutput | noise_gate.py:98-109 | definition, no contract of its own: the corrected linked output, or both channels through `process_channel` |
| NoiseGateEngine.GateStereo | noise_gate.py:98-109 | the stereo step, selected by the `stereo_link` string, computes the corrected linked output, or gates both channels independently, or raises |
| NoiseGateEngine.LinkedChannelsShareGain | noise_gate.py:103-107 | under LinkStereo, one gain (the left channel's) multiplies the left detection copy and the unfiltered right channel sample by sample |
| NoiseGateEngine.LinkedLeftIsIndependentLeft | noise_gate.py:99-109 | linking never changes the left output, nor whether the step raises |
| NoiseGateEngine.NoiseGate.constructor | noise_gate.py:8-13 | the gate holds the sample rate and one channel |
| NoiseGateEngine.NoiseGate.ApplyGate | noise_gate.py:23-99 | after the millisecond conversions, the channel becomes the `process_channel` output; on an exception it is left as it was |
| ClickRepair.Window | declicker.py:79-80 | for an interior peak and `max_steps >= 1`: `0 <= start < peak < end <= len`, and the window has between 2 and `2 * max_steps` samples |
| ClickRepair.RepairFault | declicker.py:83-101 | a repair raises iff `max_steps < 1` (IndexError) or `crossfade_samples < 1` (ValueError) |
| ClickRepair.Product | declicker.py:100-101 | numpy's elementwise product keeps the length (otherwise a definition) |
| ClickRepair.ScaleHead | declicker.py:100 | `x[:len(f)] *= f` keeps the length (otherwise a definition) |
| ClickRepair.ScaleTail | declicker.py:101 | `x[-len(f):] *= f` keeps the length (otherwise a definition) |
| ClickRepair.RepairSegment | declicker.py:87-101 | the segment has the window's length (otherwise a definition) |
| ClickRepair.SegmentValue | declicker.py:87-101 | definition, no contract of its own: sample `k` of the interpolation times its two fade factors |
| ClickRepair.FadeIn | declicker.py:91-93 | definition, no contract of its own: `linspace(0, 1, cs)[k]` on the first `cs` samples of a window longer than `cs`, 1 elsewhere |
| ClickRepair.FadeOut | declicker.py:94-96 | definition, no contract of its own: `linspace(1, 0, cs)` over the last `cs` samples of a window longer than `cs`, 1 elsewhere |
| ClickRepair.ScaleHeadAt | declicker.py:100 | `x[:len(f)] *= f` multiplies the first `len(f)` samples and keeps the rest |
| ClickRepair.ScaleTailAt | declicker.py:101 | `x[-len(f):] *= f` multiplies the last `len(f)` samples and keeps the rest |
| ClickRepair.CrossfadedInterpolation | declicker.py:87-101 | the segment is the interpolation with both ramps applied when the window exceeds the crossfade, and the plain interpolation otherwise |
| ClickRepair.Splice | declicker.py:104 | `band[start:end] = segment` keeps the band's length (otherwise a definition) |
| ClickRepair.SpliceInside | declicker.py:104 | `band[start:end] = segment` writes the segment over the window |
| ClickRepair.SpliceOutside | declicker.py:104 | the write leaves every other sample alone |
| ClickRepair.DisjointSplicesCommute | declicker.py:104 | writes over disjoint ranges commute |
| ClickRepair.SegmentOver | declicker.py:83-87 | the segment from `band[start]` to `band[end - 1]` has the window's length (otherwise a definition) |
| ClickRepair.SameEndsSameSegment | declicker.py:83-87 | the segment depends only on the window and its two end samples |
| ClickRepair.RepairAt | declicker.py:79-104 | one repair keeps the band's length |
| ClickRepair.RepairAll | declicker.py:78-104 | repairing the peaks in order keeps the band's length |
| ClickRepair.RepairAtOutside | declicker.py:104 | a repair changes no sample outside its window |
| ClickRepair.SegmentEnds | declicker.py:87-101 | without a fade the segment starts and ends at the old window ends; with one its first sample is 0, its last is 0 for `cs >= 2` (the right end for `cs = 1`), and the middle keeps the interpolation |
| ClickRepair.ShortWindowInterpolates | declicker.py:99 | when `2 * max_steps <= crossfade_samples` every repair writes the plain interpolation |
| ClickRepair.SegmentBounded | declicker.py:87-101 | no written sample is larger in magnitude than the larger window end |
| ClickRepair.FadeRange | declicker.py:91-96 | both fade factors lie in `[0, 1]` |
| ClickRepair.RepairAllOutside | declicker.py:78-104 | no sample outside every peak's window changes |
| ClickRepair.RepairTwiceDisjoint | declicker.py:78-104 | a repair before a disjoint one does not change the later one's segment |
| ClickRepair.DisjointRepairsCommute | declicker.py:78-104 | repairs with disjoint windows can be applied in either order |
| ClickRepair.SilentBandStaysSilent | declicker.py:78-104 | repairing a silent band leaves it silent |
| ClickRepair.ScaleHeadInPlace | declicker.py:100 | the in-place head product leaves the array as the head scaling of its old contents |
| ClickRepair.ScaleTailInPlace | declicker.py:101 | the in-place tail product leaves the array as the tail scaling of its old contents |
| ClickRepair.WriteSegment | declicker.py:104 | the slice write leaves the band as the splice of the segment into its old contents |
| ClickRepair.BuildSegment | declicker.py:87-101 | the segment is built, or the crossfade count's ValueError is raised |
| ClickRepair.RepairClick | declicker.py:79-104 | one in-place repair gives the repaired band, or raises before writing anything |
| ClickRepair.RepairBand | declicker.py:78-104 | the peak loop repairs in order, each window reading earlier writes, or raises at the first peak leaving the band unchanged |
| ClickRepair.RepairAllStep | declicker.py:78-104 | repairing one more peak is one more repair on the band so far |
| DeclickEngine.SplitBands | declicker.py:10-28 | the split raises ValueError iff `n_bands < -1`, and otherwise gives `max(n_bands, 0)` bands |
| DeclickEngine.SplitIntoBands | declicker.py:10-28 | the loop builds band `k` as the filter `k` of the data, each of the data's length |
| DeclickEngine.ColumnSum | declicker.py:32 | definition, no contract of its own: sample `i` summed over the bands |
| DeclickEngine.MergeBands | declicker.py:30-32 | the merge has the common band length |
| DeclickEngine.MergeAppend | declicker.py:32 | one more band adds its samples to the merge elementwise |
| DeclickEngine.MergeSingle | declicker.py:32 | the merge of one band is that band |
| DeclickEngine.MergeSilent | declicker.py:32 | the merge of silent bands is silent |
| DeclickEngine.BandPeaks | declicker.py:73-75 | definition, no contract of its own: `find_peaks(np.abs(band), threshold, separation)` on the band before any repair |
| DeclickEngine.ProcessBand | declicker.py:71-106 | a processed band keeps its length |
| DeclickEngine.ProcessBands | declicker.py:71-106 | processing gives one band per band |
| DeclickEngine.ProcessBandsOk | declicker.py:71-106 | processing succeeds iff every band does, and then band `k` is band `k` processed |
| DeclickEngine.ProcessBandsRaised | declicker.py:71-106 | processing raises iff the repair parameters are faulty and some band has a peak, and it raises the repair's exception |
| DeclickEngine.DeclickPass | declicker.py:63-109 | a pass keeps the signal's length |
| DeclickEngine.PassFaults | declicker.py:63-109 | a pass raises iff `n_bands < -1`, or the repair parameters are faulty and some band has a peak; it is ValueError or the repair's exception |
| DeclickEngine.RunPasses | declicker.py:63-109 | chained passes keep the signal's length |
| DeclickEngine.RunPassesCompose | declicker.py:63-109 | `m + j` passes are `j` passes after `m`; after an exception no later pass runs |
| DeclickEngine.QuietPassIsMerge | declicker.py:71-109 | a pass with no peak in any band is the plain sum of the bands |
| DeclickEngine.SilentPassStaysSilent | declicker.py:63-109 | if the filters give silent bands, a completed pass is silent |
| DeclickEngine.RepairOneBand | declicker.py:71-106 | the in-place band repair computes the processed band or its exception |
| DeclickEngine.RunPass | declicker.py:64-109 | one iteration of the pass loop computes the pass or its exception |
| DeclickEngine.DeClicker.constructor | declicker.py:7-8 | the declicker holds the sample rate and the signal |
| DeclickEngine.DeClicker.RemoveClicks | declicker.py:34-109 | with `crossfade_samples = int(sr * ms / 1000)`, the signal and the exception are those of `max(passes, 0)` chained passes; `passes <= 0` changes nothing |

## Left out

- dB conversion (`10 ** (db / 20)`, noise_gate.py:47-48) is floating-point exponentiation. `ApplyGate` takes the linear `threshold` and `reduction`.
- The Butterworth design and `filtfilt` (noise_gate.py:15-21, declicker.py:14-25) are foreign numerics. The filters are length-preserving function parameters. Their own errors are not modelled: critical frequencies outside (0, 1), or a signal shorter than filtfilt's padding.
- `freq_low` and `freq_high` only choose the filters through the logspace band edges (declicker.py:14). They are folded into the band-pass parameter.
- `find_peaks` internals (declicker.py:73-75) are not visible. Among them is its ValueError for `distance < 1`. The model's peak finder always returns.
- Floating-point rounding, overflow, and NaN/infinity arithmetic are not modelled. Samples are exact reals, except for the one NaN case that `LinkStereoAsWritten` keeps.
- WAV reading, peak normalisation, the int16 conversion on save, `NoiseGate.save` and the drivers (main.py, process_multiple.py, example_usage.py) are I/O. audio_processor.py is not part of this model beyond its keeping only the first channel.
- The stereo branch of `apply_gate` (noise_gate.py:101-109) is unreachable: the loader keeps one channel. It is modelled as the standalone `GateStereo`, not inside `NoiseGate.ApplyGate`.
- NoiseGateEngine.StereoOutput: in the independent branch, when the right channel raises after the left succeeded, the source has already assigned the gated left channel to `audio_data` (noise_gate.py:98) before the right one raises (noise_gate.py:108); the model returns only the exception and drops that partial state, since the branch is unreachable and its caller sees only the exception.
- DeclickEngine.MergeBands: with no bands (`n_bands` of 0 or -1), numpy's `np.sum([], axis=0)` is the scalar 0.0. The model gives a signal of zeros of the original length.
- `crackle_threshold` is accepted and never read, in the source as in `RemoveClicks`.
- The default arguments of `apply_gate` and `remove_clicks` (noise_gate.py:25-32, declicker.py:36-44) are dropped: `ApplyGate` and `RemoveClicks` take every value explicitly.

## Findings

| source | as written | input that shows it | evidently intended | confidence | as-written member | corrected member |
|---|---|---|---|---|---|---|
| noise_gate.py:105-107 | the linked right channel is `right * (left' / right)`. That is the gated left channel; where the right sample is 0 it is NaN. | left 1.0, gain 0.5, right 0.25: the right output is 0.5, not 0.125 | the right channel, unfiltered as in the linked branch, multiplied by the left channel's gain trajectory | not executed | NoiseGateEngine.LinkStereoAsWrittenCopiesLeft | NoiseGateEngine.LinkedChannelsShareGain |
