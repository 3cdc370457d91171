/** The per-channel gate of `process_channel` (noise_gate.py): a hold-counter
    state machine that turns an envelope into a gain mask, and a linear
    attack/decay recurrence that smooths the mask into a gain trajectory.

    The mask loop is specified by a closed form: sample `i` takes the open
    value 1 exactly when some sample in `[i - hold, i]` exceeds the threshold.
    The smoothing loop is specified by the recurrence `Smooth`, whose boundary
    value before index 0 is the explicit 0 the source reads from the still
    unwritten last element of `smoothed_mask`. */
module GateEnvelope {
  import opened Audio

  /** `mode == "Gate"` attenuates closed samples to `reduction`; every other
      mode string ducks them to `1 - reduction`. */
  datatype GateMode = Gate | Duck

  function ModeOf(name: string): (mode: GateMode)
    ensures mode == Gate <==> name == "Gate"
  {
    if name == "Gate" then Gate else Duck
  }

  /** The mask value of a sample on which the gate is closed. */
  function ClosedGain(mode: GateMode, reduction: real): real
  {
    if mode == Gate then reduction else 1.0 - reduction
  }

  /** How many samples back a trigger keeps the gate open; a negative hold
      count behaves like 0. */
  function HoldReach(holdSamples: int): nat
  {
    if holdSamples > 0 then holdSamples else 0
  }

  /** Some sample of the window `[i - hold, i]` lies above the threshold. */
  ghost predicate Triggered(envelope: seq<real>, threshold: real, holdSamples: int, i: int)
    requires 0 <= i < |envelope|
  {
    exists j :: i - HoldReach(holdSamples) <= j <= i && 0 <= j && envelope[j] > threshold
  }

  ghost function MaskValue(envelope: seq<real>, threshold: real, holdSamples: int,
                           mode: GateMode, reduction: real, i: int): real
    requires 0 <= i < |envelope|
  {
    if Triggered(envelope, threshold, holdSamples, i) then 1.0 else ClosedGain(mode, reduction)
  }

  /** The gate mask in closed form. */
  ghost function GateMaskSpec(envelope: seq<real>, threshold: real, holdSamples: int,
                              mode: GateMode, reduction: real): (mask: seq<real>)
    ensures |mask| == |envelope|
  {
    seq(|envelope|, i requires 0 <= i < |envelope| =>
      MaskValue(envelope, threshold, holdSamples, mode, reduction, i))
  }

  /** The hold counter after the first `n` envelope samples, starting at 0. */
  ghost function HoldAfter(envelope: seq<real>, threshold: real, holdSamples: int, n: nat): int
    requires n <= |envelope|
  {
    if n == 0 then 0
    else
      var h := HoldAfter(envelope, threshold, holdSamples, n - 1);
      if envelope[n - 1] > threshold then holdSamples
      else if h > 0 then h - 1
      else h
  }

  /** The counter is at least `k >= 1` exactly when some sample among the last
      `hold - k + 1` lies above the threshold. */
  lemma {:induction false} HoldAtLeast(envelope: seq<real>, threshold: real, holdSamples: int, n: nat, k: int)
    requires n <= |envelope| && k >= 1
    ensures HoldAfter(envelope, threshold, holdSamples, n) >= k <==>
            exists j :: n - 1 - holdSamples + k <= j < n && 0 <= j && envelope[j] > threshold
  {
    if n > 0 {
      HoldAtLeast(envelope, threshold, holdSamples, n - 1, k);
      HoldAtLeast(envelope, threshold, holdSamples, n - 1, k + 1);
      var h := HoldAfter(envelope, threshold, holdSamples, n - 1);
      if envelope[n - 1] > threshold {
        if holdSamples >= k {
          assert n - 1 - holdSamples + k <= n - 1;
        }
      }
    }
  }

  /** The counter stays within `[0, hold]`. */
  lemma {:induction false} HoldBounds(envelope: seq<real>, threshold: real, holdSamples: int, n: nat)
    requires n <= |envelope| && holdSamples >= 0
    ensures 0 <= HoldAfter(envelope, threshold, holdSamples, n) <= holdSamples
  {
    if n > 0 {
      HoldBounds(envelope, threshold, holdSamples, n - 1);
    }
  }

  /** After the last trigger at `j` the counter is reset to `hold` and drops by
      exactly one per sample until it reaches 0. */
  lemma {:induction false} HoldCountdown(envelope: seq<real>, threshold: real, holdSamples: int, j: nat, n: nat)
    requires j < n <= |envelope| && holdSamples >= 0
    requires envelope[j] > threshold
    requires forall m :: j < m < n ==> envelope[m] <= threshold
    ensures HoldAfter(envelope, threshold, holdSamples, n) == MaxInt(holdSamples - (n - 1 - j), 0)
  {
    if n > j + 1 {
      HoldCountdown(envelope, threshold, holdSamples, j, n - 1);
    }
  }

  /** The loop takes an open branch (above threshold, or held) at sample `i`
      exactly when the closed form says the gate is triggered there; and a
      positive counter means the previous sample was triggered too. */
  lemma OpenBranch(envelope: seq<real>, threshold: real, holdSamples: int, i: nat)
    requires i < |envelope|
    ensures (envelope[i] > threshold || HoldAfter(envelope, threshold, holdSamples, i) > 0) <==>
            Triggered(envelope, threshold, holdSamples, i)
    ensures HoldAfter(envelope, threshold, holdSamples, i) > 0 ==>
            i > 0 && Triggered(envelope, threshold, holdSamples, i - 1)
  {
    HoldAtLeast(envelope, threshold, holdSamples, i, 1);
    if envelope[i] > threshold {
      assert i - HoldReach(holdSamples) <= i;
    }
    if HoldAfter(envelope, threshold, holdSamples, i) > 0 {
      var j :| i - holdSamples <= j < i && 0 <= j && envelope[j] > threshold;
      assert i - HoldReach(holdSamples) <= j;
      assert i - 1 - HoldReach(holdSamples) <= j <= i - 1;
    }
    if Triggered(envelope, threshold, holdSamples, i) && envelope[i] <= threshold {
      var j :| i - HoldReach(holdSamples) <= j <= i && 0 <= j && envelope[j] > threshold;
      assert j < i && i - holdSamples <= j;
    }
  }

  /** A sample above the threshold opens the gate and resets the counter. */
  lemma AboveThresholdOpens(envelope: seq<real>, threshold: real, holdSamples: int,
                            mode: GateMode, reduction: real, i: nat)
    requires i < |envelope| && envelope[i] > threshold
    ensures GateMaskSpec(envelope, threshold, holdSamples, mode, reduction)[i] == 1.0
    ensures HoldAfter(envelope, threshold, holdSamples, i + 1) == holdSamples
  {
    assert i - HoldReach(holdSamples) <= i;
  }

  /** The mask loop of `process_channel` (noise_gate.py:63-82). `isOpen` is
      written but never read, as in the source. */
  method ComputeGateMask(envelope: seq<real>, threshold: real, holdSamples: int,
                         mode: GateMode, reduction: real) returns (mask: seq<real>)
    ensures mask == GateMaskSpec(envelope, threshold, holdSamples, mode, reduction)
    ensures forall i :: 0 <= i < |mask| ==> mask[i] == 1.0 || mask[i] == ClosedGain(mode, reduction)
  {
    var gate := new real[|envelope|](_ => 0.0);
    var isOpen := false;
    var holdCounter := 0;
    for i := 0 to |envelope|
      invariant holdCounter == HoldAfter(envelope, threshold, holdSamples, i)
      invariant isOpen == (i > 0 && Triggered(envelope, threshold, holdSamples, i - 1))
      invariant forall k :: 0 <= k < i ==>
        gate[k] == MaskValue(envelope, threshold, holdSamples, mode, reduction, k)
    {
      OpenBranch(envelope, threshold, holdSamples, i);
      if envelope[i] > threshold {
        isOpen := true;
        holdCounter := holdSamples;
        gate[i] := 1.0;
      } else if holdCounter > 0 {
        holdCounter := holdCounter - 1;
        gate[i] := 1.0;
      } else {
        isOpen := false;
        if mode == Gate {
          gate[i] := reduction;
        } else {
          gate[i] := 1.0 - reduction;
        }
      }
    }
    mask := gate[..];
    assert mask == GateMaskSpec(envelope, threshold, holdSamples, mode, reduction);
  }

  /** One step of the attack/decay recurrence, or the ZeroDivisionError that
      `1 / attack_samples` or `1 / decay_samples` raises on the branch taken. */
  function SmoothStep(previous: real, target: real, attackSamples: int, decaySamples: int,
                      reduction: real): Outcome<real>
  {
    if target > previous then
      if attackSamples == 0 then Raised(ZeroDivisionError)
      else Ok(Min(1.0, previous + 1.0 / (attackSamples as real)))
    else
      if decaySamples == 0 then Raised(ZeroDivisionError)
      else Ok(Max(reduction, previous - 1.0 / (decaySamples as real)))
  }

  /** The smoothed gain of the first `n` mask samples; the value before index
      0 is 0. */
  function Smooth(mask: seq<real>, attackSamples: int, decaySamples: int, reduction: real, n: nat)
    : (r: Outcome<seq<real>>)
    requires n <= |mask|
    ensures r.Ok? ==> |r.value| == n
    ensures r.Raised? ==> n > 0 && r.exception == ZeroDivisionError &&
                          (attackSamples == 0 || decaySamples == 0)
    decreases n
  {
    if n == 0 then Ok([])
    else
      match Smooth(mask, attackSamples, decaySamples, reduction, n - 1)
      case Raised(e) => Raised(e)
      case Ok(prefix) =>
        var previous := if n == 1 then 0.0 else prefix[n - 2];
        match SmoothStep(previous, mask[n - 1], attackSamples, decaySamples, reduction)
        case Raised(e) => Raised(e)
        case Ok(g) => Ok(prefix + [g])
  }

  /** Once the recurrence raises, it stays raised. */
  lemma {:induction false} SmoothRaisedPersists(mask: seq<real>, attackSamples: int, decaySamples: int,
                                                reduction: real, m: nat, n: nat)
    requires m <= n <= |mask|
    requires Smooth(mask, attackSamples, decaySamples, reduction, m).Raised?
    ensures Smooth(mask, attackSamples, decaySamples, reduction, n) ==
            Smooth(mask, attackSamples, decaySamples, reduction, m)
  {
    if n > m {
      SmoothRaisedPersists(mask, attackSamples, decaySamples, reduction, m, n - 1);
    }
  }

  /** A successful run over `n` samples extends every shorter run. */
  lemma {:induction false} SmoothPrefix(mask: seq<real>, attackSamples: int, decaySamples: int,
                                        reduction: real, m: nat, n: nat)
    requires m <= n <= |mask|
    requires Smooth(mask, attackSamples, decaySamples, reduction, n).Ok?
    ensures Smooth(mask, attackSamples, decaySamples, reduction, m) ==
            Ok(Smooth(mask, attackSamples, decaySamples, reduction, n).value[..m])
  {
    if n > m {
      var prefix := Smooth(mask, attackSamples, decaySamples, reduction, n - 1).value;
      assert Smooth(mask, attackSamples, decaySamples, reduction, n).value[..n - 1] == prefix;
      SmoothPrefix(mask, attackSamples, decaySamples, reduction, m, n - 1);
      assert Smooth(mask, attackSamples, decaySamples, reduction, n).value[..m] == prefix[..m];
    } else {
      assert Smooth(mask, attackSamples, decaySamples, reduction, n).value[..n] ==
             Smooth(mask, attackSamples, decaySamples, reduction, n).value;
    }
  }

  /** With non-zero attack and decay counts no division by zero happens. */
  lemma {:induction false} SmoothDefined(mask: seq<real>, attackSamples: int, decaySamples: int,
                                         reduction: real, n: nat)
    requires n <= |mask| && attackSamples != 0 && decaySamples != 0
    ensures Smooth(mask, attackSamples, decaySamples, reduction, n).Ok?
  {
    if n > 0 {
      SmoothDefined(mask, attackSamples, decaySamples, reduction, n - 1);
    }
  }

  /** The recurrence index by index: gain `i` follows from gain `i - 1`, or
      from 0 at index 0, by an attack step when the mask is above it and by a
      decay step otherwise. */
  lemma SmoothAt(mask: seq<real>, attackSamples: int, decaySamples: int, reduction: real, n: nat, i: nat)
    requires i < n <= |mask|
    requires Smooth(mask, attackSamples, decaySamples, reduction, n).Ok?
    ensures var g := Smooth(mask, attackSamples, decaySamples, reduction, n).value;
      var previous := if i == 0 then 0.0 else g[i - 1];
      (mask[i] > previous ==>
         attackSamples != 0 && g[i] == Min(1.0, previous + 1.0 / (attackSamples as real))) &&
      (mask[i] <= previous ==>
         decaySamples != 0 && g[i] == Max(reduction, previous - 1.0 / (decaySamples as real)))
  {
    SmoothPrefix(mask, attackSamples, decaySamples, reduction, i + 1, n);
    var g := Smooth(mask, attackSamples, decaySamples, reduction, n).value;
    var h := Smooth(mask, attackSamples, decaySamples, reduction, i + 1).value;
    assert h == g[..i + 1];
    assert h[i] == g[i];
    if i > 0 {
      assert h[i - 1] == g[i - 1];
    }
  }

  /** An attack step raises the gain by at most `1/attack` and never above 1;
      a decay step lowers it by at most `1/decay` and never below `reduction`. */
  lemma AttackDecayLimits(mask: seq<real>, attackSamples: int, decaySamples: int, reduction: real,
                          n: nat, i: nat)
    requires i < n <= |mask|
    requires Smooth(mask, attackSamples, decaySamples, reduction, n).Ok?
    ensures var g := Smooth(mask, attackSamples, decaySamples, reduction, n).value;
      var previous := if i == 0 then 0.0 else g[i - 1];
      (mask[i] > previous ==>
         (attackSamples != 0 &&
          g[i] <= 1.0 && g[i] <= previous + 1.0 / (attackSamples as real) &&
          (g[i] == 1.0 || g[i] == previous + 1.0 / (attackSamples as real)))) &&
      (mask[i] <= previous ==>
         (decaySamples != 0 &&
          g[i] >= reduction && g[i] >= previous - 1.0 / (decaySamples as real)))
  {
    SmoothAt(mask, attackSamples, decaySamples, reduction, n, i);
  }

  /** With positive counts and `0 < reduction <= 1` every gain lies in (0, 1]. */
  lemma {:induction false} SmoothRange(mask: seq<real>, attackSamples: int, decaySamples: int,
                                       reduction: real, n: nat)
    requires n <= |mask| && attackSamples > 0 && decaySamples > 0 && 0.0 < reduction <= 1.0
    ensures Smooth(mask, attackSamples, decaySamples, reduction, n).Ok?
    ensures var g := Smooth(mask, attackSamples, decaySamples, reduction, n).value;
      forall i :: 0 <= i < n ==> 0.0 < g[i] <= 1.0
  {
    SmoothDefined(mask, attackSamples, decaySamples, reduction, n);
    if n > 0 {
      SmoothRange(mask, attackSamples, decaySamples, reduction, n - 1);
      var g := Smooth(mask, attackSamples, decaySamples, reduction, n).value;
      var prefix := Smooth(mask, attackSamples, decaySamples, reduction, n - 1).value;
      assert g == prefix + [g[n - 1]];
      var previous := if n == 1 then 0.0 else prefix[n - 2];
      assert 0.0 <= previous <= 1.0;
      assert 1.0 / (attackSamples as real) > 0.0;
    }
  }

  /** One step of a sustained tone: from a gain at least
      `Min(1 - 1/decay, i/attack)` and at most 1, the next gain is at least
      `Min(1 - 1/decay, (i + 1)/attack)`. */
  lemma SustainedStep(previous: real, next: real, target: real, i: nat,
                      attackSamples: int, decaySamples: int, reduction: real)
    requires attackSamples > 0 && decaySamples > 0 && target == 1.0
    requires Min(1.0 - 1.0 / (decaySamples as real), i as real * (1.0 / (attackSamples as real))) <= previous <= 1.0
    requires target > previous ==> next == Min(1.0, previous + 1.0 / (attackSamples as real))
    requires target <= previous ==> next == Max(reduction, previous - 1.0 / (decaySamples as real))
    ensures next >= Min(1.0 - 1.0 / (decaySamples as real), (i + 1) as real * (1.0 / (attackSamples as real)))
    ensures i + 1 >= attackSamples ==> next >= 1.0 - 1.0 / (decaySamples as real)
  {
    var step := 1.0 / (attackSamples as real);
    assert step > 0.0;
    assert (i + 1) as real * step == i as real * step + step;
    if i + 1 >= attackSamples {
      assert (attackSamples as real) * step == 1.0;
      assert (i + 1) as real * step >= (attackSamples as real) * step;
    }
  }

  /** Gain `j` of a fully open mask: an attack step from the previous gain
      when it is below 1, a decay step otherwise. */
  ghost predicate OpenStep(g: seq<real>, j: nat, attackSamples: int, decaySamples: int, reduction: real)
    requires j < |g| && attackSamples > 0 && decaySamples > 0
  {
    var previous := if j == 0 then 0.0 else g[j - 1];
    (1.0 > previous ==> g[j] == Min(1.0, previous + 1.0 / (attackSamples as real))) &&
    (1.0 <= previous ==> g[j] == Max(reduction, previous - 1.0 / (decaySamples as real)))
  }

  /** The ramp bound for any gains in [0, 1] that follow `OpenStep`. */
  lemma {:induction false} OpenRamp(g: seq<real>, attackSamples: int, decaySamples: int,
                                    reduction: real, i: nat)
    requires i < |g| && attackSamples > 0 && decaySamples > 0
    requires forall j :: 0 <= j < |g| ==> 0.0 <= g[j] <= 1.0
    requires forall j :: 0 <= j <= i ==> OpenStep(g, j, attackSamples, decaySamples, reduction)
    ensures g[i] >= Min(1.0 - 1.0 / (decaySamples as real), (i + 1) as real * (1.0 / (attackSamples as real)))
    ensures i + 1 >= attackSamples ==> g[i] >= 1.0 - 1.0 / (decaySamples as real)
  {
    if i > 0 {
      OpenRamp(g, attackSamples, decaySamples, reduction, i - 1);
      assert (i - 1 + 1) as real == i as real;
    }
    var previous := if i == 0 then 0.0 else g[i - 1];
    assert OpenStep(g, i, attackSamples, decaySamples, reduction);
    SustainedStep(previous, g[i], 1.0, i, attackSamples, decaySamples, reduction);
  }

  /** While the mask stays 1 from the start, the gain ramps up by `1/attack`
      per sample; once it has reached full gain an attack step is no longer
      taken (1 is not above 1), so the gain can dip by `1/decay` before it
      rises again. It therefore never falls below `1 - 1/decay` after the
      ramp. */
  lemma SustainedTone(mask: seq<real>, attackSamples: int, decaySamples: int,
                      reduction: real, n: nat, i: nat)
    requires i < n <= |mask| && attackSamples > 0 && decaySamples > 0 && 0.0 < reduction <= 1.0
    requires forall j :: 0 <= j <= i ==> mask[j] == 1.0
    ensures Smooth(mask, attackSamples, decaySamples, reduction, n).Ok?
    ensures var g := Smooth(mask, attackSamples, decaySamples, reduction, n).value;
      g[i] >= Min(1.0 - 1.0 / (decaySamples as real), (i + 1) as real * (1.0 / (attackSamples as real)))
    ensures i + 1 >= attackSamples ==>
      Smooth(mask, attackSamples, decaySamples, reduction, n).value[i] >= 1.0 - 1.0 / (decaySamples as real)
  {
    SmoothRange(mask, attackSamples, decaySamples, reduction, n);
    var g := Smooth(mask, attackSamples, decaySamples, reduction, n).value;
    forall j | 0 <= j <= i ensures OpenStep(g, j, attackSamples, decaySamples, reduction) {
      SmoothAt(mask, attackSamples, decaySamples, reduction, n, j);
    }
    OpenRamp(g, attackSamples, decaySamples, reduction, i);
  }

  /** The smoothing loop of `process_channel` (noise_gate.py:85-94). At
      `i == 0` the source reads `smoothed_mask[-1]`, the last element, which
      is still the 0 it was initialised with. */
  method SmoothMask(mask: seq<real>, attackSamples: int, decaySamples: int, reduction: real)
    returns (r: Outcome<seq<real>>)
    ensures r == Smooth(mask, attackSamples, decaySamples, reduction, |mask|)
  {
    var n := |mask|;
    var smoothed := new real[n](_ => 0.0);
    for i := 0 to n
      invariant Smooth(mask, attackSamples, decaySamples, reduction, i) == Ok(smoothed[..i])
      invariant forall k :: i <= k < n ==> smoothed[k] == 0.0
    {
      var previous := smoothed[if i == 0 then n - 1 else i - 1];
      if mask[i] > previous {
        if attackSamples == 0 {
          SmoothRaisedPersists(mask, attackSamples, decaySamples, reduction, i + 1, n);
          return Raised(ZeroDivisionError);
        }
        smoothed[i] := Min(1.0, previous + 1.0 / (attackSamples as real));
      } else {
        if decaySamples == 0 {
          SmoothRaisedPersists(mask, attackSamples, decaySamples, reduction, i + 1, n);
          return Raised(ZeroDivisionError);
        }
        smoothed[i] := Max(reduction, previous - 1.0 / (decaySamples as real));
      }
      assert smoothed[..i + 1] == smoothed[..i] + [smoothed[i]];
    }
    r := Ok(smoothed[..]);
    assert smoothed[..] == smoothed[..n];
  }
}
