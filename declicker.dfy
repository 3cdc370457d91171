/** `DeClicker.remove_clicks` (declicker.py:34-109) around the per-band
    repair of `ClickRepair`: each pass splits the signal into bands, finds
    the peaks of every band, repairs them in place, and sums the bands back
    into `audio_data`.

    The band-pass filters of `_split_into_bands` are one function parameter,
    `bandPass(k, data)` for band `k`, that only has to preserve length;
    scipy's `find_peaks` is a function parameter that returns strictly
    ascending interior indices. */
module DeclickEngine {
  import opened Audio
  import opened ClickRepair

  ghost predicate LengthPreservingBands(bandPass: (nat, seq<real>) -> seq<real>)
  {
    forall k, x :: |bandPass(k, x)| == |x|
  }

  /** What the model relies on from `find_peaks(np.abs(band), height,
      distance)`: ascending indices of interior samples. */
  ghost predicate PeakFinder(findPeaks: (seq<real>, real, int) -> seq<int>)
  {
    forall x, height, distance :: ValidPeaks(findPeaks(x, height, distance), |x|)
  }

  /** The parameters one pass works with, after the millisecond conversion. */
  datatype DeclickConfig = DeclickConfig(
    threshold: real,
    maxSteps: int,
    separation: int,
    crossfadeSamples: int,
    nBands: int)

  /** `_split_into_bands`: band `k` of `range(n_bands)` filtered from the
      data. The band edges come from `np.logspace(..., n_bands + 1)`, which
      raises ValueError for a negative count, that is for `n_bands < -1`. */
  ghost function SplitBands(data: seq<real>, nBands: int, bandPass: (nat, seq<real>) -> seq<real>)
    : (r: Outcome<seq<seq<real>>>)
    ensures r.Ok? <==> nBands >= -1
    ensures r.Raised? ==> r.exception == ValueError
    ensures r.Ok? ==> |r.value| == MaxInt(nBands, 0)
  {
    if nBands + 1 < 0 then Raised(ValueError)
    else Ok(seq(MaxInt(nBands, 0), k requires 0 <= k < MaxInt(nBands, 0) => bandPass(k, data)))
  }

  /** The loop of `_split_into_bands` (declicker.py:10-28). */
  method SplitIntoBands(data: seq<real>, nBands: int, bandPass: (nat, seq<real>) -> seq<real>)
    returns (r: Outcome<seq<seq<real>>>)
    requires LengthPreservingBands(bandPass)
    ensures r == SplitBands(data, nBands, bandPass)
    ensures r.Ok? ==> forall k :: 0 <= k < |r.value| ==> r.value[k] == bandPass(k, data) && |r.value[k]| == |data|
  {
    if nBands + 1 < 0 {
      return Raised(ValueError);
    }
    var bands := [];
    var i := 0;
    while i < nBands
      invariant 0 <= i <= MaxInt(nBands, 0)
      invariant bands == SplitBands(data, nBands, bandPass).value[..i]
    {
      bands := bands + [bandPass(i, data)];
      i := i + 1;
    }
    assert bands == SplitBands(data, nBands, bandPass).value;
    return Ok(bands);
  }

  /** Sample `i` summed over the bands, first band first. */
  function ColumnSum(bands: seq<seq<real>>, i: nat): real
    requires forall k :: 0 <= k < |bands| ==> i < |bands[k]|
  {
    if |bands| == 0 then 0.0 else ColumnSum(bands[..|bands| - 1], i) + bands[|bands| - 1][i]
  }

  /** `_merge_bands`: `np.sum(bands, axis=0)` over bands of a common length. */
  function MergeBands(bands: seq<seq<real>>, length: nat): (out: seq<real>)
    requires forall k :: 0 <= k < |bands| ==> |bands[k]| == length
    ensures |out| == length
  {
    seq(length, i requires 0 <= i < length => ColumnSum(bands, i))
  }

  /** Adding one more band adds it to the merge elementwise. */
  lemma MergeAppend(bands: seq<seq<real>>, band: seq<real>, length: nat, i: nat)
    requires forall k :: 0 <= k < |bands| ==> |bands[k]| == length
    requires |band| == length && i < length
    ensures MergeBands(bands + [band], length)[i] == MergeBands(bands, length)[i] + band[i]
  {
    assert (bands + [band])[..|bands|] == bands;
  }

  /** Merging a single band gives the band back. */
  lemma MergeSingle(band: seq<real>)
    ensures MergeBands([band], |band|) == band
  {
    forall i | 0 <= i < |band| ensures MergeBands([band], |band|)[i] == band[i] {
      MergeAppend([], band, |band|, i);
    }
  }

  /** The merge of silent bands is silent. */
  lemma {:induction false} MergeSilent(bands: seq<seq<real>>, length: nat, i: nat)
    requires forall k :: 0 <= k < |bands| ==> |bands[k]| == length
    requires forall k, j :: 0 <= k < |bands| && 0 <= j < length ==> bands[k][j] == 0.0
    requires i < length
    ensures MergeBands(bands, length)[i] == 0.0
    decreases |bands|
  {
    if |bands| > 0 {
      var rest := bands[..|bands| - 1];
      MergeSilent(rest, length, i);
      MergeAppend(rest, bands[|bands| - 1], length, i);
      assert rest + [bands[|bands| - 1]] == bands;
    }
  }

  /** Peaks of one band: `find_peaks(np.abs(band), height=threshold,
      distance=separation)`, computed once, before any repair. */
  function BandPeaks(band: seq<real>, cfg: DeclickConfig, findPeaks: (seq<real>, real, int) -> seq<int>)
    : seq<int>
  {
    findPeaks(Magnitudes(band), cfg.threshold, cfg.separation)
  }

  /** One band after its peaks are repaired in ascending order
      (declicker.py:72-106); a repair raises only when there is a peak. */
  function ProcessBand(band: seq<real>, cfg: DeclickConfig, findPeaks: (seq<real>, real, int) -> seq<int>)
    : (r: Outcome<seq<real>>)
    requires PeakFinder(findPeaks)
    ensures r.Ok? ==> |r.value| == |band|
  {
    var peaks := BandPeaks(band, cfg, findPeaks);
    assert ValidPeaks(findPeaks(Magnitudes(band), cfg.threshold, cfg.separation), |Magnitudes(band)|);
    var fault := RepairFault(cfg.maxSteps, cfg.crossfadeSamples);
    if |peaks| > 0 && fault.Some? then Raised(fault.value)
    else Ok(RepairAll(band, peaks, cfg.maxSteps, cfg.crossfadeSamples))
  }

  /** The bands processed first to last, stopping at the first exception. */
  function ProcessBands(bands: seq<seq<real>>, cfg: DeclickConfig,
                        findPeaks: (seq<real>, real, int) -> seq<int>): (r: Outcome<seq<seq<real>>>)
    requires PeakFinder(findPeaks)
    ensures r.Ok? ==> |r.value| == |bands|
    decreases |bands|
  {
    if |bands| == 0 then Ok([])
    else
      match ProcessBands(bands[..|bands| - 1], cfg, findPeaks)
      case Raised(e) => Raised(e)
      case Ok(done) =>
        match ProcessBand(bands[|bands| - 1], cfg, findPeaks)
        case Raised(e) => Raised(e)
        case Ok(band) => Ok(done + [band])
  }

  /** Processing succeeds exactly when every band does, and then band `k`
      of the result is band `k` processed. */
  lemma {:induction false} ProcessBandsOk(bands: seq<seq<real>>, cfg: DeclickConfig,
                                          findPeaks: (seq<real>, real, int) -> seq<int>)
    requires PeakFinder(findPeaks)
    ensures ProcessBands(bands, cfg, findPeaks).Ok? <==>
      forall k :: 0 <= k < |bands| ==> ProcessBand(bands[k], cfg, findPeaks).Ok?
    ensures ProcessBands(bands, cfg, findPeaks).Ok? ==>
      forall k :: 0 <= k < |bands| ==>
        ProcessBands(bands, cfg, findPeaks).value[k] == ProcessBand(bands[k], cfg, findPeaks).value
    decreases |bands|
  {
    if |bands| > 0 {
      var rest := bands[..|bands| - 1];
      ProcessBandsOk(rest, cfg, findPeaks);
      assert forall k :: 0 <= k < |rest| ==> rest[k] == bands[k];
    }
  }

  /** A pass raises only if some band has a peak and the repair parameters
      are faulty, and then it raises the repair's exception. */
  lemma {:induction false} ProcessBandsRaised(bands: seq<seq<real>>, cfg: DeclickConfig,
                                              findPeaks: (seq<real>, real, int) -> seq<int>)
    requires PeakFinder(findPeaks)
    ensures ProcessBands(bands, cfg, findPeaks).Raised? <==>
      RepairFault(cfg.maxSteps, cfg.crossfadeSamples).Some? &&
      exists k :: 0 <= k < |bands| && |BandPeaks(bands[k], cfg, findPeaks)| > 0
    ensures ProcessBands(bands, cfg, findPeaks).Raised? ==>
      ProcessBands(bands, cfg, findPeaks).exception == RepairFault(cfg.maxSteps, cfg.crossfadeSamples).value
    decreases |bands|
  {
    if |bands| > 0 {
      var rest := bands[..|bands| - 1];
      ProcessBandsRaised(rest, cfg, findPeaks);
      assert forall k :: 0 <= k < |rest| ==> rest[k] == bands[k];
      if RepairFault(cfg.maxSteps, cfg.crossfadeSamples).Some? &&
         |BandPeaks(bands[|bands| - 1], cfg, findPeaks)| > 0 {
        assert ProcessBands(bands, cfg, findPeaks).Raised?;
      }
    }
  }

  /** One pass: split, process every band, merge (declicker.py:64-109). */
  ghost function DeclickPass(data: seq<real>, cfg: DeclickConfig, bandPass: (nat, seq<real>) -> seq<real>,
                             findPeaks: (seq<real>, real, int) -> seq<int>): (r: Outcome<seq<real>>)
    requires LengthPreservingBands(bandPass) && PeakFinder(findPeaks)
    ensures r.Ok? ==> |r.value| == |data|
  {
    match SplitBands(data, cfg.nBands, bandPass)
    case Raised(e) => Raised(e)
    case Ok(bands) =>
      match ProcessBands(bands, cfg, findPeaks)
      case Raised(e) => Raised(e)
      case Ok(processed) =>
        ProcessBandsOk(bands, cfg, findPeaks);
        Ok(MergeBands(processed, |data|))
  }

  /** A pass raises exactly when the band count is below -1, or when some
      band has a peak and the repair parameters are faulty; the exception is
      the split's or the repair's. */
  lemma PassFaults(data: seq<real>, cfg: DeclickConfig, bandPass: (nat, seq<real>) -> seq<real>,
                   findPeaks: (seq<real>, real, int) -> seq<int>)
    requires LengthPreservingBands(bandPass) && PeakFinder(findPeaks)
    ensures DeclickPass(data, cfg, bandPass, findPeaks).Raised? <==>
      cfg.nBands < -1 ||
      (RepairFault(cfg.maxSteps, cfg.crossfadeSamples).Some? &&
       exists k: nat :: k < cfg.nBands && |BandPeaks(bandPass(k, data), cfg, findPeaks)| > 0)
    ensures DeclickPass(data, cfg, bandPass, findPeaks).Raised? ==>
      DeclickPass(data, cfg, bandPass, findPeaks).exception ==
        if cfg.nBands < -1 then ValueError else RepairFault(cfg.maxSteps, cfg.crossfadeSamples).value
  {
    if cfg.nBands >= -1 {
      var bands := SplitBands(data, cfg.nBands, bandPass).value;
      ProcessBandsRaised(bands, cfg, findPeaks);
      assert forall k :: 0 <= k < |bands| ==> bands[k] == bandPass(k, data);
    }
  }

  /** `count` passes from `data`: the signal after the last completed pass,
      and the exception that stopped the passes, if any. */
  ghost function RunPasses(data: seq<real>, count: nat, cfg: DeclickConfig,
                           bandPass: (nat, seq<real>) -> seq<real>,
                           findPeaks: (seq<real>, real, int) -> seq<int>): (r: (seq<real>, Option<Exception>))
    requires LengthPreservingBands(bandPass) && PeakFinder(findPeaks)
    ensures |r.0| == |data|
    decreases count
  {
    if count == 0 then (data, None)
    else
      var (current, raised) := RunPasses(data, count - 1, cfg, bandPass, findPeaks);
      if raised.Some? then (current, raised)
      else
        match DeclickPass(current, cfg, bandPass, findPeaks)
        case Raised(e) => (current, Some(e))
        case Ok(next) => (next, None)
  }

  /** Passes chain: `m + j` passes are `j` passes from the result of `m`,
      and an exception ends all later passes. */
  lemma {:induction false} RunPassesCompose(data: seq<real>, m: nat, j: nat, cfg: DeclickConfig,
                                            bandPass: (nat, seq<real>) -> seq<real>,
                                            findPeaks: (seq<real>, real, int) -> seq<int>)
    requires LengthPreservingBands(bandPass) && PeakFinder(findPeaks)
    ensures var (current, raised) := RunPasses(data, m, cfg, bandPass, findPeaks);
      RunPasses(data, m + j, cfg, bandPass, findPeaks) ==
        if raised.Some? then (current, raised) else RunPasses(current, j, cfg, bandPass, findPeaks)
    decreases j
  {
    if j > 0 {
      RunPassesCompose(data, m, j - 1, cfg, bandPass, findPeaks);
    }
  }

  /** After `pass` completed passes ending in `current`, pass `pass + 1`
      either completes with the next signal or stops with its exception. */
  lemma NextPass(data: seq<real>, pass: nat, cfg: DeclickConfig, bandPass: (nat, seq<real>) -> seq<real>,
                 findPeaks: (seq<real>, real, int) -> seq<int>, current: seq<real>)
    requires LengthPreservingBands(bandPass) && PeakFinder(findPeaks)
    requires RunPasses(data, pass, cfg, bandPass, findPeaks) == (current, None)
    ensures RunPasses(data, pass + 1, cfg, bandPass, findPeaks) ==
      match DeclickPass(current, cfg, bandPass, findPeaks)
      case Raised(e) => (current, Some(e))
      case Ok(next) => (next, None)
  {
  }

  /** A pass over a signal whose bands have no peak is the plain merge of
      the bands. */
  lemma QuietPassIsMerge(data: seq<real>, cfg: DeclickConfig, bandPass: (nat, seq<real>) -> seq<real>,
                         findPeaks: (seq<real>, real, int) -> seq<int>)
    requires LengthPreservingBands(bandPass) && PeakFinder(findPeaks)
    requires cfg.nBands >= -1
    requires forall k: nat :: k < cfg.nBands ==> BandPeaks(bandPass(k, data), cfg, findPeaks) == []
    ensures DeclickPass(data, cfg, bandPass, findPeaks) ==
      Ok(MergeBands(SplitBands(data, cfg.nBands, bandPass).value, |data|))
  {
    var bands := SplitBands(data, cfg.nBands, bandPass).value;
    ProcessBandsOk(bands, cfg, findPeaks);
    var processed := ProcessBands(bands, cfg, findPeaks).value;
    assert processed == bands;
  }

  /** When the filters send a silent signal to silent bands, a pass keeps
      it silent, whatever peaks are reported. */
  lemma SilentPassStaysSilent(data: seq<real>, cfg: DeclickConfig, bandPass: (nat, seq<real>) -> seq<real>,
                              findPeaks: (seq<real>, real, int) -> seq<int>)
    requires LengthPreservingBands(bandPass) && PeakFinder(findPeaks)
    requires forall k: nat, j :: k < cfg.nBands && 0 <= j < |data| ==> bandPass(k, data)[j] == 0.0
    ensures DeclickPass(data, cfg, bandPass, findPeaks).Ok? ==>
      forall i :: 0 <= i < |data| ==> DeclickPass(data, cfg, bandPass, findPeaks).value[i] == 0.0
  {
    if cfg.nBands < -1 {
      return;
    }
    var bands := SplitBands(data, cfg.nBands, bandPass).value;
    ProcessBandsOk(bands, cfg, findPeaks);
    if ProcessBands(bands, cfg, findPeaks).Ok? {
      var processed := ProcessBands(bands, cfg, findPeaks).value;
      forall k | 0 <= k < |processed|
        ensures forall j :: 0 <= j < |data| ==> processed[k][j] == 0.0
      {
        var peaks := BandPeaks(bands[k], cfg, findPeaks);
        assert ValidPeaks(findPeaks(Magnitudes(bands[k]), cfg.threshold, cfg.separation), |Magnitudes(bands[k])|);
        if |peaks| > 0 {
          SilentBandStaysSilent(bands[k], peaks, cfg.maxSteps, cfg.crossfadeSamples);
        }
      }
      forall i | 0 <= i < |data| ensures MergeBands(processed, |data|)[i] == 0.0 {
        MergeSilent(processed, |data|, i);
      }
    }
  }

  /** The repair of one band in place (declicker.py:72-106): the band is
      copied into an array, its peaks are found once, and the array is
      repaired peak by peak. */
  method RepairOneBand(samples: seq<real>, cfg: DeclickConfig, findPeaks: (seq<real>, real, int) -> seq<int>)
    returns (r: Outcome<seq<real>>)
    requires PeakFinder(findPeaks)
    ensures r == ProcessBand(samples, cfg, findPeaks)
  {
    var band := new real[|samples|](k requires 0 <= k < |samples| => samples[k]);
    assert band[..] == samples;
    var peaks := BandPeaks(samples, cfg, findPeaks);
    assert ValidPeaks(findPeaks(Magnitudes(samples), cfg.threshold, cfg.separation), |Magnitudes(samples)|);
    var fault := RepairBand(band, peaks, cfg.maxSteps, cfg.crossfadeSamples);
    if fault.Some? {
      return Raised(fault.value);
    }
    return Ok(band[..]);
  }

  /** One pass of the `for _ in range(passes)` loop (declicker.py:64-109). */
  method RunPass(data: seq<real>, cfg: DeclickConfig, bandPass: (nat, seq<real>) -> seq<real>,
                 findPeaks: (seq<real>, real, int) -> seq<int>)
    returns (r: Outcome<seq<real>>)
    requires LengthPreservingBands(bandPass) && PeakFinder(findPeaks)
    ensures r == DeclickPass(data, cfg, bandPass, findPeaks)
  {
    var split := SplitIntoBands(data, cfg.nBands, bandPass);
    if split.Raised? {
      return Raised(split.exception);
    }
    var bands := split.value;
    var processed: seq<seq<real>> := [];
    for b := 0 to |bands|
      invariant ProcessBands(bands[..b], cfg, findPeaks) == Ok(processed)
    {
      var repaired := RepairOneBand(bands[b], cfg, findPeaks);
      assert bands[..b + 1][..b] == bands[..b];
      if repaired.Raised? {
        PassRaises(bands, b, cfg, findPeaks);
        return Raised(repaired.exception);
      }
      processed := processed + [repaired.value];
    }
    assert bands[..|bands|] == bands;
    ProcessBandsOk(bands, cfg, findPeaks);
    return Ok(MergeBands(processed, |data|));
  }

  /** A pass that raised at band `b` is the pass's exception. */
  lemma PassRaises(bands: seq<seq<real>>, b: nat, cfg: DeclickConfig,
                   findPeaks: (seq<real>, real, int) -> seq<int>)
    requires PeakFinder(findPeaks) && b < |bands|
    requires ProcessBands(bands[..b], cfg, findPeaks).Ok?
    requires ProcessBand(bands[b], cfg, findPeaks).Raised?
    ensures ProcessBands(bands, cfg, findPeaks) == Raised(ProcessBand(bands[b], cfg, findPeaks).exception)
  {
    ProcessBandsRaised(bands, cfg, findPeaks);
    assert |BandPeaks(bands[b], cfg, findPeaks)| > 0;
  }

  class DeClicker {
    const sampleRate: int
    var audioData: seq<real>

    constructor (sampleRate: int, samples: seq<real>)
      ensures this.sampleRate == sampleRate && audioData == samples
    {
      this.sampleRate := sampleRate;
      audioData := samples;
    }

    /** `remove_clicks`. `crackleThreshold` is accepted and never read, as in
        the source. On an exception `audioData` holds the result of the last
        completed pass: the field is only assigned at the end of a pass. */
    method RemoveClicks(threshold: real, maxSteps: int, separation: int, crackleThreshold: real,
                        crossfadeMs: real, nBands: int, passes: int,
                        bandPass: (nat, seq<real>) -> seq<real>,
                        findPeaks: (seq<real>, real, int) -> seq<int>)
      returns (raised: Option<Exception>)
      requires LengthPreservingBands(bandPass) && PeakFinder(findPeaks)
      modifies this
      ensures var cfg := DeclickConfig(threshold, maxSteps, separation,
                                       MsToSamples(sampleRate, crossfadeMs), nBands);
        (audioData, raised) == RunPasses(old(audioData), MaxInt(passes, 0), cfg, bandPass, findPeaks)
      ensures passes <= 0 ==> audioData == old(audioData) && raised == None
    {
      var cfg := DeclickConfig(threshold, maxSteps, separation, MsToSamples(sampleRate, crossfadeMs), nBands);
      var pass := 0;
      while pass < passes
        invariant 0 <= pass <= MaxInt(passes, 0)
        invariant RunPasses(old(audioData), pass, cfg, bandPass, findPeaks) == (audioData, None)
      {
        var result := RunPass(audioData, cfg, bandPass, findPeaks);
        NextPass(old(audioData), pass, cfg, bandPass, findPeaks, audioData);
        if result.Raised? {
          RunPassesCompose(old(audioData), pass + 1, passes - pass - 1, cfg, bandPass, findPeaks);
          return Some(result.exception);
        }
        audioData := result.value;
        pass := pass + 1;
      }
      return None;
    }
  }
}
