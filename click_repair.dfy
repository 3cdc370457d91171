/** The repair of one band in `DeClicker.remove_clicks` (declicker.py:78-104):
    for each peak, in ascending order, the window around it is replaced, in
    place, by a linear interpolation between the window's end samples, with
    fade ramps multiplied onto its edges when the window is longer than the
    crossfade.

    `RepairAt` is the effect of one peak on the band and `RepairAll` the
    left-to-right effect of a peak list, so a later window reads the samples
    an earlier overlapping window has already rewritten. */
module ClickRepair {
  import opened Audio

  datatype RepairWindow = RepairWindow(start: int, end: int)

  /** `start = max(0, peak - max_steps)`, `end = min(len(band), peak + max_steps)`. */
  function Window(peak: int, maxSteps: int, length: int): (w: RepairWindow)
    ensures 1 <= peak <= length - 2 && maxSteps >= 1 ==>
      0 <= w.start < peak < w.end <= length && 2 <= w.end - w.start <= 2 * maxSteps
  {
    RepairWindow(MaxInt(0, peak - maxSteps), MinInt(length, peak + maxSteps))
  }

  /** What `find_peaks` returns: ascending indices, neither the first nor the
      last sample. */
  ghost predicate ValidPeaks(peaks: seq<int>, length: int)
  {
    InteriorPeaks(peaks, length) &&
    forall i, j :: 0 <= i < j < |peaks| ==> peaks[i] < peaks[j]
  }

  ghost predicate InteriorPeaks(peaks: seq<int>, length: int)
  {
    forall i :: 0 <= i < |peaks| ==> 1 <= peaks[i] <= length - 2
  }

  /** The exception a repair raises before it writes anything: for
      `max_steps < 1` the slice `band[start:peak]` is empty and `left[0]`
      raises IndexError; a negative crossfade count makes `np.linspace`
      raise ValueError; a zero count leaves `interpolated[-0:]`, the whole
      segment, to be multiplied by an empty ramp, which numpy rejects with
      ValueError. */
  function RepairFault(maxSteps: int, crossfadeSamples: int): (fault: Option<Exception>)
    ensures fault.None? <==> maxSteps >= 1 && crossfadeSamples >= 1
  {
    if maxSteps < 1 then Some(IndexError)
    else if crossfadeSamples < 1 then Some(ValueError)
    else None
  }

  /** numpy's elementwise product of two signals of equal length. */
  function Product(x: seq<real>, f: seq<real>): (r: seq<real>)
    requires |f| == |x|
    ensures |r| == |x|
  {
    seq(|x|, i requires 0 <= i < |x| => x[i] * f[i])
  }

  /** `x[:len(f)] *= f` */
  function ScaleHead(x: seq<real>, f: seq<real>): (r: seq<real>)
    requires |f| <= |x|
    ensures |r| == |x|
  {
    Product(x[..|f|], f) + x[|f|..]
  }

  /** `x[-len(f):] *= f`; an empty `f` is excluded, since `x[-0:]` is
      all of `x` and numpy then refuses to broadcast. */
  function ScaleTail(x: seq<real>, f: seq<real>): (r: seq<real>)
    requires 1 <= |f| <= |x|
    ensures |r| == |x|
  {
    x[..|x| - |f|] + Product(x[|x| - |f|..], f)
  }

  /** The head scaling multiplies the first `|f|` samples and keeps the rest. */
  lemma ScaleHeadAt(x: seq<real>, f: seq<real>, k: nat)
    requires |f| <= |x| && k < |x|
    ensures ScaleHead(x, f)[k] == if k < |f| then x[k] * f[k] else x[k]
  {
    if k < |f| {
      assert Product(x[..|f|], f)[k] == x[..|f|][k] * f[k];
    }
  }

  /** The tail scaling multiplies the last `|f|` samples and keeps the rest. */
  lemma ScaleTailAt(x: seq<real>, f: seq<real>, k: nat)
    requires 1 <= |f| <= |x| && k < |x|
    ensures var offset := |x| - |f|;
      ScaleTail(x, f)[k] == if k >= offset then x[k] * f[k - offset] else x[k]
  {
    var offset := |x| - |f|;
    if k >= offset {
      assert Product(x[offset..], f)[k - offset] == x[offset..][k - offset] * f[k - offset];
    }
  }

  /** The segment written over a window of `n` samples, sample by sample:
      the interpolation from `low` to `high`, times the fade-in ramp over
      its first and the fade-out ramp over its last `crossfadeSamples`
      samples when the window is longer than that (`CrossfadedInterpolation`
      shows it is the result of the numpy operations of declicker.py:87-101). */
  function RepairSegment(low: real, high: real, n: nat, crossfadeSamples: int): (seg: seq<real>)
    requires crossfadeSamples >= 1
    ensures |seg| == n
  {
    seq(n, k requires 0 <= k < n => SegmentValue(low, high, n, crossfadeSamples, k))
  }

  function SegmentValue(low: real, high: real, n: nat, crossfadeSamples: int, k: nat): real
    requires crossfadeSamples >= 1
  {
    LinspaceValue(low, high, n, k) * FadeIn(n, crossfadeSamples, k) * FadeOut(n, crossfadeSamples, k)
  }

  /** The fade-in factor of sample `k`: `linspace(0, 1, cs)[k]` on the
      first `cs` samples of a window longer than `cs`, 1 elsewhere. */
  function FadeIn(n: nat, crossfadeSamples: int, k: nat): real
    requires crossfadeSamples >= 1
  {
    if n > crossfadeSamples && k < crossfadeSamples
    then LinspaceValue(0.0, 1.0, crossfadeSamples, k) else 1.0
  }

  /** The fade-out factor of sample `k`: `linspace(1, 0, cs)` laid over the
      last `cs` samples of a window longer than `cs`, 1 elsewhere. */
  function FadeOut(n: nat, crossfadeSamples: int, k: nat): real
    requires crossfadeSamples >= 1
  {
    if n > crossfadeSamples && k >= n - crossfadeSamples
    then LinspaceValue(1.0, 0.0, crossfadeSamples, k - (n - crossfadeSamples)) else 1.0
  }

  /** The segment is what declicker.py computes: the interpolation, with the
      fade-in multiplied onto its head and then the fade-out onto its tail
      when the window is longer than the crossfade, untouched otherwise. */
  lemma CrossfadedInterpolation(low: real, high: real, n: nat, crossfadeSamples: int)
    requires crossfadeSamples >= 1
    ensures var interpolated := Linspace(low, high, n);
      RepairSegment(low, high, n, crossfadeSamples) ==
        if n > crossfadeSamples
        then ScaleTail(ScaleHead(interpolated, Linspace(0.0, 1.0, crossfadeSamples)),
                       Linspace(1.0, 0.0, crossfadeSamples))
        else interpolated
  {
    var interpolated := Linspace(low, high, n);
    var segment := RepairSegment(low, high, n, crossfadeSamples);
    if n > crossfadeSamples {
      var fadeIn := Linspace(0.0, 1.0, crossfadeSamples);
      var fadeOut := Linspace(1.0, 0.0, crossfadeSamples);
      var faded := ScaleTail(ScaleHead(interpolated, fadeIn), fadeOut);
      forall k | 0 <= k < n ensures segment[k] == faded[k] {
        CrossfadedAt(low, high, n, crossfadeSamples, k);
      }
    } else {
      forall k | 0 <= k < n ensures segment[k] == interpolated[k] {
      }
    }
  }

  /** `band[start:start + len(segment)] = segment` */
  function Splice(band: seq<real>, start: nat, segment: seq<real>): (r: seq<real>)
    requires start + |segment| <= |band|
    ensures |r| == |band|
  {
    band[..start] + segment + band[start + |segment|..]
  }

  /** A splice writes its segment over its range ... */
  lemma SpliceInside(band: seq<real>, start: nat, segment: seq<real>, i: int)
    requires start + |segment| <= |band| && start <= i < start + |segment|
    ensures Splice(band, start, segment)[i] == segment[i - start]
  {
  }

  /** ... and leaves every other sample alone. */
  lemma SpliceOutside(band: seq<real>, start: nat, segment: seq<real>, i: int)
    requires start + |segment| <= |band| && 0 <= i < |band| && !(start <= i < start + |segment|)
    ensures Splice(band, start, segment)[i] == band[i]
  {
  }

  /** Splices over disjoint ranges commute. */
  lemma DisjointSplicesCommute(band: seq<real>, s1: nat, seg1: seq<real>, s2: nat, seg2: seq<real>)
    requires s1 + |seg1| <= s2 && s2 + |seg2| <= |band|
    ensures Splice(Splice(band, s1, seg1), s2, seg2) == Splice(Splice(band, s2, seg2), s1, seg1)
  {
    var a := Splice(Splice(band, s1, seg1), s2, seg2);
    var b := Splice(Splice(band, s2, seg2), s1, seg1);
    forall i | 0 <= i < |band| ensures a[i] == b[i] {
      if s1 <= i < s1 + |seg1| {
        SpliceInside(band, s1, seg1, i);
        SpliceOutside(band, s2, seg2, i);
        SpliceOutside(Splice(band, s1, seg1), s2, seg2, i);
        SpliceInside(Splice(band, s2, seg2), s1, seg1, i);
      } else if s2 <= i < s2 + |seg2| {
        SpliceOutside(band, s1, seg1, i);
        SpliceInside(band, s2, seg2, i);
        SpliceInside(Splice(band, s1, seg1), s2, seg2, i);
        SpliceOutside(Splice(band, s2, seg2), s1, seg1, i);
      } else {
        SpliceOutside(band, s1, seg1, i);
        SpliceOutside(band, s2, seg2, i);
        SpliceOutside(Splice(band, s1, seg1), s2, seg2, i);
        SpliceOutside(Splice(band, s2, seg2), s1, seg1, i);
      }
    }
  }

  /** The segment a repair over window `w` of `band` writes. */
  function SegmentOver(band: seq<real>, w: RepairWindow, crossfadeSamples: int): (seg: seq<real>)
    requires 0 <= w.start < w.end <= |band| && crossfadeSamples >= 1
    ensures |seg| == w.end - w.start
  {
    RepairSegment(band[w.start], band[w.end - 1], w.end - w.start, crossfadeSamples)
  }

  /** Segments over the same window of two bands that agree on the window's
      end samples are equal. */
  lemma SameEndsSameSegment(band: seq<real>, other: seq<real>, w: RepairWindow, crossfadeSamples: int)
    requires 0 <= w.start < w.end <= |band| == |other| && crossfadeSamples >= 1
    requires band[w.start] == other[w.start] && band[w.end - 1] == other[w.end - 1]
    ensures SegmentOver(band, w, crossfadeSamples) == SegmentOver(other, w, crossfadeSamples)
  {
  }

  /** The band after repairing the click at `peak`. */
  function RepairAt(band: seq<real>, peak: int, maxSteps: int, crossfadeSamples: int): (r: seq<real>)
    requires 1 <= peak <= |band| - 2 && maxSteps >= 1 && crossfadeSamples >= 1
    ensures |r| == |band|
  {
    var w := Window(peak, maxSteps, |band|);
    Splice(band, w.start, SegmentOver(band, w, crossfadeSamples))
  }

  /** The band after repairing every peak of `peaks`, first to last. */
  function RepairAll(band: seq<real>, peaks: seq<int>, maxSteps: int, crossfadeSamples: int)
    : (r: seq<real>)
    requires InteriorPeaks(peaks, |band|) && (|peaks| == 0 || RepairFault(maxSteps, crossfadeSamples).None?)
    ensures |r| == |band|
    decreases |peaks|
  {
    if |peaks| == 0 then band
    else
      var earlier := RepairAll(band, peaks[..|peaks| - 1], maxSteps, crossfadeSamples);
      RepairAt(earlier, peaks[|peaks| - 1], maxSteps, crossfadeSamples)
  }

  /** A repair leaves every sample outside its window alone. */
  lemma RepairAtOutside(band: seq<real>, peak: int, maxSteps: int, crossfadeSamples: int, i: int)
    requires 1 <= peak <= |band| - 2 && maxSteps >= 1 && crossfadeSamples >= 1 && 0 <= i < |band|
    requires var w := Window(peak, maxSteps, |band|); !(w.start <= i < w.end)
    ensures RepairAt(band, peak, maxSteps, crossfadeSamples)[i] == band[i]
  {
    var w := Window(peak, maxSteps, |band|);
    SpliceOutside(band, w.start, SegmentOver(band, w, crossfadeSamples), i);
  }

  /** A band obtained by splicing the repair segment over the window is the
      repaired band. */
  lemma SplicedSegmentIsRepair(band: seq<real>, peak: int, maxSteps: int, crossfadeSamples: int,
                               segment: seq<real>, result: seq<real>)
    requires 1 <= peak <= |band| - 2 && maxSteps >= 1 && crossfadeSamples >= 1
    requires var w := Window(peak, maxSteps, |band|);
      segment == SegmentOver(band, w, crossfadeSamples) && result == Splice(band, w.start, segment)
    ensures result == RepairAt(band, peak, maxSteps, crossfadeSamples)
  {
  }

  lemma CrossfadedAt(low: real, high: real, n: nat, crossfadeSamples: int, k: nat)
    requires 1 <= crossfadeSamples < n && k < n
    ensures var fadeIn, fadeOut := Linspace(0.0, 1.0, crossfadeSamples), Linspace(1.0, 0.0, crossfadeSamples);
      ScaleTail(ScaleHead(Linspace(low, high, n), fadeIn), fadeOut)[k] == SegmentValue(low, high, n, crossfadeSamples, k)
  {
    var line, fadeIn, fadeOut := Linspace(low, high, n), Linspace(0.0, 1.0, crossfadeSamples),
                                 Linspace(1.0, 0.0, crossfadeSamples);
    var x, a, b := LinspaceValue(low, high, n, k), FadeIn(n, crossfadeSamples, k), FadeOut(n, crossfadeSamples, k);
    assert line[k] == x;
    if k < crossfadeSamples {
      assert a == fadeIn[k];
    }
    if k >= n - crossfadeSamples {
      assert b == fadeOut[k - (n - crossfadeSamples)];
    }
    ScaledTwiceAt(line, fadeIn, fadeOut, k, x, a, b);
  }

  /** Sample `k` after the head and then the tail scaling is the sample
      times its two factors, 1 where a ramp does not reach. */
  lemma ScaledTwiceAt(x: seq<real>, fadeIn: seq<real>, fadeOut: seq<real>, k: nat, v: real, a: real, b: real)
    requires |fadeIn| <= |x| && 1 <= |fadeOut| <= |x| && k < |x| && v == x[k]
    requires a == if k < |fadeIn| then fadeIn[k] else 1.0
    requires b == if k >= |x| - |fadeOut| then fadeOut[k - (|x| - |fadeOut|)] else 1.0
    ensures ScaleTail(ScaleHead(x, fadeIn), fadeOut)[k] == v * a * b
  {
    var head := ScaleHead(x, fadeIn);
    ScaleHeadAt(x, fadeIn, k);
    assert head[k] == x[k] * a;
    ScaleTailAt(head, fadeOut, k);
  }

  /** The ends of the written segment. Without a fade (window not longer
      than the crossfade) it is the plain interpolation and starts and ends
      at the old window ends. With a fade the first sample becomes 0, the
      last becomes 0 for a crossfade of two or more samples and stays the
      right end for one, and the samples between the two ramps keep their
      interpolated values. */
  lemma SegmentEnds(low: real, high: real, n: nat, crossfadeSamples: int)
    requires n >= 2 && crossfadeSamples >= 1
    ensures var seg := RepairSegment(low, high, n, crossfadeSamples);
      (n <= crossfadeSamples ==> seg == Linspace(low, high, n) && seg[0] == low && seg[n - 1] == high) &&
      (n > crossfadeSamples ==>
        seg[0] == 0.0 &&
        (crossfadeSamples >= 2 ==> seg[n - 1] == 0.0) &&
        (crossfadeSamples == 1 ==> seg[n - 1] == high) &&
        forall k :: crossfadeSamples <= k < n - crossfadeSamples ==> seg[k] == Linspace(low, high, n)[k])
  {
    CrossfadedInterpolation(low, high, n, crossfadeSamples);
  }

  /** A window of at most `2 * max_steps` samples is never longer than a
      crossfade of at least that many samples (with the default 2 steps and
      5 ms this holds for every sample rate of 800 Hz and up), so the repair
      writes the plain interpolation between the old window ends. */
  lemma ShortWindowInterpolates(band: seq<real>, peak: int, maxSteps: int, crossfadeSamples: int, i: int)
    requires 1 <= peak <= |band| - 2 && maxSteps >= 1 && 2 * maxSteps <= crossfadeSamples
    requires var w := Window(peak, maxSteps, |band|); w.start <= i < w.end
    ensures var w := Window(peak, maxSteps, |band|);
      RepairAt(band, peak, maxSteps, crossfadeSamples)[i] ==
        Linspace(band[w.start], band[w.end - 1], w.end - w.start)[i - w.start]
  {
    var w := Window(peak, maxSteps, |band|);
    var seg := SegmentOver(band, w, crossfadeSamples);
    SegmentEnds(band[w.start], band[w.end - 1], w.end - w.start, crossfadeSamples);
    SpliceInside(band, w.start, seg, i);
  }

  /** No repaired sample is larger in magnitude than the larger of the two
      window ends: the click is replaced by a value bounded by its
      neighbourhood. */
  lemma SegmentBounded(low: real, high: real, n: nat, crossfadeSamples: int, k: nat)
    requires crossfadeSamples >= 1 && k < n
    ensures Abs(RepairSegment(low, high, n, crossfadeSamples)[k]) <= Max(Abs(low), Abs(high))
  {
    var x, a, b := LinspaceValue(low, high, n, k), FadeIn(n, crossfadeSamples, k), FadeOut(n, crossfadeSamples, k);
    assert RepairSegment(low, high, n, crossfadeSamples)[k] == x * a * b;
    LinspaceWithin(low, high, n, k);
    FadeRange(n, crossfadeSamples, k);
    ScaledTwiceBounded(x, a, b, Max(Abs(low), Abs(high)));
  }

  /** Both fade factors lie in [0, 1]. */
  lemma FadeRange(n: nat, crossfadeSamples: int, k: nat)
    requires crossfadeSamples >= 1 && k < n
    ensures 0.0 <= FadeIn(n, crossfadeSamples, k) <= 1.0
    ensures 0.0 <= FadeOut(n, crossfadeSamples, k) <= 1.0
  {
    if n > crossfadeSamples && k < crossfadeSamples {
      LinspaceWithin(0.0, 1.0, crossfadeSamples, k);
    }
    if n > crossfadeSamples && k >= n - crossfadeSamples {
      LinspaceWithin(1.0, 0.0, crossfadeSamples, k - (n - crossfadeSamples));
    }
  }

  lemma ScaledTwiceBounded(x: real, a: real, b: real, bound: real)
    requires Abs(x) <= bound && 0.0 <= a <= 1.0 && 0.0 <= b <= 1.0
    ensures Abs(x * a * b) <= bound
  {
    UnitScale(x, a, bound);
    UnitScale(x * a, b, bound);
  }

  lemma UnitScale(x: real, factor: real, bound: real)
    requires 0.0 <= factor <= 1.0 && Abs(x) <= bound
    ensures Abs(x * factor) <= bound
  {
    if x >= 0.0 {
      assert x * factor <= x * 1.0;
    } else {
      assert x * factor >= x * 1.0;
    }
  }

  /** A sample outside every window of `peaks` is never written. */
  lemma {:induction false} RepairAllOutside(band: seq<real>, peaks: seq<int>, maxSteps: int,
                                            crossfadeSamples: int, i: int)
    requires InteriorPeaks(peaks, |band|) && maxSteps >= 1 && crossfadeSamples >= 1 && 0 <= i < |band|
    requires forall k :: 0 <= k < |peaks| ==>
      !(Window(peaks[k], maxSteps, |band|).start <= i < Window(peaks[k], maxSteps, |band|).end)
    ensures RepairAll(band, peaks, maxSteps, crossfadeSamples)[i] == band[i]
  {
    if |peaks| > 0 {
      var rest := peaks[..|peaks| - 1];
      RepairAllOutside(band, rest, maxSteps, crossfadeSamples, i);
      var earlier := RepairAll(band, rest, maxSteps, crossfadeSamples);
      RepairAtOutside(earlier, peaks[|peaks| - 1], maxSteps, crossfadeSamples, i);
    }
  }

  /** Repairs of two peaks whose windows do not overlap commute: the order of
      repairs matters only where a later window reads samples an earlier one
      rewrote. */
  lemma DisjointRepairsCommute(band: seq<real>, p: int, q: int, maxSteps: int, crossfadeSamples: int)
    requires 1 <= p <= |band| - 2 && 1 <= q <= |band| - 2 && maxSteps >= 1 && crossfadeSamples >= 1
    requires Window(p, maxSteps, |band|).end <= Window(q, maxSteps, |band|).start
    ensures RepairAt(RepairAt(band, p, maxSteps, crossfadeSamples), q, maxSteps, crossfadeSamples) ==
            RepairAt(RepairAt(band, q, maxSteps, crossfadeSamples), p, maxSteps, crossfadeSamples)
  {
    RepairTwiceDisjoint(band, p, q, maxSteps, crossfadeSamples);
    RepairTwiceDisjoint(band, q, p, maxSteps, crossfadeSamples);
    var wp := Window(p, maxSteps, |band|);
    var wq := Window(q, maxSteps, |band|);
    DisjointSplicesCommute(band, wp.start, SegmentOver(band, wp, crossfadeSamples),
                           wq.start, SegmentOver(band, wq, crossfadeSamples));
  }

  /** Two repairs over disjoint windows both read their window ends from the
      original band: the result is the two segments spliced over it. */
  lemma RepairTwiceDisjoint(band: seq<real>, p: int, q: int, maxSteps: int, crossfadeSamples: int)
    requires 1 <= p <= |band| - 2 && 1 <= q <= |band| - 2 && maxSteps >= 1 && crossfadeSamples >= 1
    requires var wp := Window(p, maxSteps, |band|); var wq := Window(q, maxSteps, |band|);
      wp.end <= wq.start || wq.end <= wp.start
    ensures var wp := Window(p, maxSteps, |band|); var wq := Window(q, maxSteps, |band|);
      RepairAt(RepairAt(band, p, maxSteps, crossfadeSamples), q, maxSteps, crossfadeSamples) ==
        Splice(Splice(band, wp.start, SegmentOver(band, wp, crossfadeSamples)),
               wq.start, SegmentOver(band, wq, crossfadeSamples))
  {
    var wq := Window(q, maxSteps, |band|);
    var repaired := RepairAt(band, p, maxSteps, crossfadeSamples);
    RepairAtOutside(band, p, maxSteps, crossfadeSamples, wq.start);
    RepairAtOutside(band, p, maxSteps, crossfadeSamples, wq.end - 1);
    SameEndsSameSegment(repaired, band, wq, crossfadeSamples);
  }

  /** The segment between two silent window ends is silent. */
  lemma SilentSegment(n: nat, crossfadeSamples: int, k: nat)
    requires crossfadeSamples >= 1 && k < n
    ensures RepairSegment(0.0, 0.0, n, crossfadeSamples)[k] == 0.0
  {
    LinspaceWithin(0.0, 0.0, n, k);
  }

  /** A silent band stays silent under any sequence of repairs. */
  lemma {:induction false} SilentBandStaysSilent(band: seq<real>, peaks: seq<int>, maxSteps: int,
                                                 crossfadeSamples: int)
    requires InteriorPeaks(peaks, |band|) && maxSteps >= 1 && crossfadeSamples >= 1
    requires forall i :: 0 <= i < |band| ==> band[i] == 0.0
    ensures forall i :: 0 <= i < |band| ==> RepairAll(band, peaks, maxSteps, crossfadeSamples)[i] == 0.0
  {
    if |peaks| > 0 {
      var rest := peaks[..|peaks| - 1];
      SilentBandStaysSilent(band, rest, maxSteps, crossfadeSamples);
      var earlier := RepairAll(band, rest, maxSteps, crossfadeSamples);
      RepairOfSilence(earlier, peaks[|peaks| - 1], maxSteps, crossfadeSamples);
    }
  }

  /** One repair of a silent band leaves it silent. */
  lemma RepairOfSilence(band: seq<real>, peak: int, maxSteps: int, crossfadeSamples: int)
    requires 1 <= peak <= |band| - 2 && maxSteps >= 1 && crossfadeSamples >= 1
    requires forall i :: 0 <= i < |band| ==> band[i] == 0.0
    ensures forall i :: 0 <= i < |band| ==> RepairAt(band, peak, maxSteps, crossfadeSamples)[i] == 0.0
  {
    var w := Window(peak, maxSteps, |band|);
    var segment := SegmentOver(band, w, crossfadeSamples);
    forall i | 0 <= i < |band| ensures Splice(band, w.start, segment)[i] == 0.0 {
      if w.start <= i < w.end {
        SpliceInside(band, w.start, segment, i);
        SilentSegment(w.end - w.start, crossfadeSamples, i - w.start);
      } else {
        SpliceOutside(band, w.start, segment, i);
      }
    }
  }

  /** `x[:len(f)] *= f` on an array. */
  method ScaleHeadInPlace(x: array<real>, f: seq<real>)
    requires |f| <= x.Length
    modifies x
    ensures x[..] == ScaleHead(old(x[..]), f)
  {
    forall k | 0 <= k < |f| {
      x[k] := x[k] * f[k];
    }
    forall k | 0 <= k < x.Length ensures x[k] == ScaleHead(old(x[..]), f)[k] {
      ScaleHeadAt(old(x[..]), f, k);
    }
  }

  /** `x[-len(f):] *= f` on an array, for a non-empty `f`. */
  method ScaleTailInPlace(x: array<real>, f: seq<real>)
    requires 1 <= |f| <= x.Length
    modifies x
    ensures x[..] == ScaleTail(old(x[..]), f)
  {
    var offset := x.Length - |f|;
    forall k | offset <= k < x.Length {
      x[k] := x[k] * f[k - offset];
    }
    forall k | 0 <= k < x.Length ensures x[k] == ScaleTail(old(x[..]), f)[k] {
      ScaleTailAt(old(x[..]), f, k);
    }
  }

  /** `band[start:start + len(segment)] = segment` on an array. */
  method WriteSegment(band: array<real>, start: nat, segment: seq<real>)
    requires start + |segment| <= band.Length
    modifies band
    ensures band[..] == Splice(old(band[..]), start, segment)
  {
    forall k | start <= k < start + |segment| {
      band[k] := segment[k - start];
    }
    forall i | 0 <= i < band.Length ensures band[i] == Splice(old(band[..]), start, segment)[i] {
      if start <= i < start + |segment| {
        SpliceInside(old(band[..]), start, segment, i);
      } else {
        SpliceOutside(old(band[..]), start, segment, i);
      }
    }
  }

  /** The segment for a window of `n >= 1` samples built as declicker.py:87-101
      builds it: a linspace, whose head and then tail are multiplied by the
      fade ramps when the window is longer than the crossfade. A negative
      crossfade makes `np.linspace` raise; a zero one leaves an empty ramp to
      be multiplied onto the whole segment, which numpy refuses. */
  method BuildSegment(low: real, high: real, n: nat, crossfadeSamples: int)
    returns (result: Outcome<seq<real>>)
    requires n >= 1
    ensures crossfadeSamples < 1 ==> result == Raised(ValueError)
    ensures crossfadeSamples >= 1 ==> result == Ok(RepairSegment(low, high, n, crossfadeSamples))
  {
    var line := Linspace(low, high, n);
    var interpolated := new real[n](k requires 0 <= k < n => line[k]);
    assert interpolated[..] == line;
    if crossfadeSamples < 0 {
      return Raised(ValueError);
    }
    var count := MinInt(n, crossfadeSamples);
    var fadeIn := Linspace(0.0, 1.0, count);
    var fadeOut := Linspace(1.0, 0.0, count);
    if n > crossfadeSamples {
      if crossfadeSamples == 0 {
        return Raised(ValueError);
      }
      ScaleHeadInPlace(interpolated, fadeIn);
      ScaleTailInPlace(interpolated, fadeOut);
    }
    CrossfadedInterpolation(low, high, n, crossfadeSamples);
    return Ok(interpolated[..]);
  }

  /** One peak repaired in place on a band (declicker.py:79-104). On an
      exception nothing has been written. */
  method RepairClick(band: array<real>, peak: int, maxSteps: int, crossfadeSamples: int)
    returns (fault: Option<Exception>)
    requires 1 <= peak <= band.Length - 2
    modifies band
    ensures fault == RepairFault(maxSteps, crossfadeSamples)
    ensures fault.Some? ==> band[..] == old(band[..])
    ensures fault.None? ==> band[..] == RepairAt(old(band[..]), peak, maxSteps, crossfadeSamples)
  {
    var w := Window(peak, maxSteps, band.Length);
    var start, end := w.start, w.end;
    // left = band[start:peak] and right = band[peak:end]: left[0] exists only when start < peak
    if start >= peak {
      return Some(IndexError);
    }
    // both halves are non-empty here, so the crossfade branch is always taken
    var built := BuildSegment(band[start], band[end - 1], end - start, crossfadeSamples);
    if built.Raised? {
      return Some(built.exception);
    }
    ghost var before := band[..];
    WriteSegment(band, start, built.value);
    SplicedSegmentIsRepair(before, peak, maxSteps, crossfadeSamples, built.value, band[..]);
    fault := None;
  }

  /** All peaks of one band repaired in ascending order on the same array
      (declicker.py:78-104). */
  method RepairBand(band: array<real>, peaks: seq<int>, maxSteps: int, crossfadeSamples: int)
    returns (fault: Option<Exception>)
    requires InteriorPeaks(peaks, band.Length)
    modifies band
    ensures fault == if |peaks| == 0 then None else RepairFault(maxSteps, crossfadeSamples)
    ensures fault.Some? ==> band[..] == old(band[..])
    ensures fault.None? ==> band[..] == RepairAll(old(band[..]), peaks, maxSteps, crossfadeSamples)
  {
    for i := 0 to |peaks|
      invariant i > 0 ==> RepairFault(maxSteps, crossfadeSamples).None?
      invariant band[..] == RepairAll(old(band[..]), peaks[..i], maxSteps, crossfadeSamples)
    {
      ghost var before := band[..];
      fault := RepairClick(band, peaks[i], maxSteps, crossfadeSamples);
      if fault.Some? {
        assert peaks[..i] == [];
        return;
      }
      RepairAllStep(old(band[..]), peaks, i, maxSteps, crossfadeSamples);
    }
    assert peaks[..|peaks|] == peaks;
    fault := None;
  }

  /** Repairing one more peak extends the left-to-right fold by one step. */
  lemma RepairAllStep(band: seq<real>, peaks: seq<int>, i: nat, maxSteps: int, crossfadeSamples: int)
    requires InteriorPeaks(peaks, |band|) && i < |peaks| && RepairFault(maxSteps, crossfadeSamples).None?
    ensures RepairAll(band, peaks[..i + 1], maxSteps, crossfadeSamples) ==
            RepairAt(RepairAll(band, peaks[..i], maxSteps, crossfadeSamples), peaks[i], maxSteps, crossfadeSamples)
  {
    assert peaks[..i + 1][..i] == peaks[..i];
  }
}
