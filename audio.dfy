/** Vocabulary shared by the noise gate and the declicker: the exceptions the
    modelled Python code can raise, small arithmetic helpers over `real`
    samples, Python's `int()` on a float, and numpy's `abs` and `linspace`. */
module Audio {

  /** The Python exceptions the modelled code can raise. */
  datatype Exception = ZeroDivisionError | IndexError | ValueError

  /** A computation that either returns a value or raises. */
  datatype Outcome<T> = Ok(value: T) | Raised(exception: Exception)

  datatype Option<T> = None | Some(value: T)

  function Min(a: real, b: real): real { if a <= b then a else b }

  function Max(a: real, b: real): real { if a >= b then a else b }

  function MinInt(a: int, b: int): int { if a <= b then a else b }

  function MaxInt(a: int, b: int): int { if a >= b then a else b }

  function Abs(x: real): real { if x < 0.0 then -x else x }

  /** `np.abs` applied to a whole signal. */
  function Magnitudes(x: seq<real>): (m: seq<real>)
    ensures |m| == |x|
    ensures forall i :: 0 <= i < |x| ==> 0.0 <= m[i] && (m[i] == x[i] || m[i] == -x[i])
  {
    seq(|x|, i requires 0 <= i < |x| => Abs(x[i]))
  }

  /** Python's `int()` applied to a float: truncation toward zero. */
  function Truncate(x: real): (n: int)
    ensures 0.0 <= x ==> n as real <= x < n as real + 1.0
    ensures x < 0.0 ==> n as real - 1.0 < x <= n as real
  {
    if x >= 0.0 then x.Floor else -((-x).Floor)
  }

  /** `int(sample_rate * ms / 1000)`: a duration in milliseconds as a whole
      number of samples, truncated toward zero. */
  function MsToSamples(sampleRate: int, ms: real): (n: int)
    ensures var exact := sampleRate as real * ms;
      (0.0 <= exact ==> 1000.0 * n as real <= exact < 1000.0 * (n as real + 1.0)) &&
      (exact < 0.0 ==> 1000.0 * (n as real - 1.0) < exact <= 1000.0 * n as real)
  {
    Truncate(sampleRate as real * ms / 1000.0)
  }

  /** For a whole number of milliseconds the sample count is the integer
      quotient of `sampleRate * ms` by 1000, rounded toward zero. */
  lemma WholeMsToSamples(sampleRate: nat, ms: int)
    ensures var p := sampleRate * ms;
      MsToSamples(sampleRate, ms as real) == if p >= 0 then p / 1000 else -((-p) / 1000)
  {
    var p := sampleRate * ms;
    RealProduct(sampleRate, ms);
    if p >= 0 {
      WholeQuotient(p);
    } else {
      WholeQuotient(-p);
      assert p as real / 1000.0 == -((-p) as real / 1000.0);
    }
  }

  lemma RealProduct(a: int, b: int)
    ensures a as real * b as real == (a * b) as real
  {
  }

  /** The floor of `a / 1000` over the reals is the integer quotient. */
  lemma WholeQuotient(a: nat)
    ensures (a as real / 1000.0).Floor == a / 1000
  {
    var q, r := a / 1000, a % 1000;
    assert a == 1000 * q + r && 0 <= r < 1000;
    assert a as real / 1000.0 == q as real + r as real / 1000.0;
  }

  /** `np.linspace(start, stop, num)` over the reals. */
  function Linspace(start: real, stop: real, num: nat): (r: seq<real>)
    ensures |r| == num
  {
    seq(num, k requires 0 <= k < num => LinspaceValue(start, stop, num, k))
  }

  /** The k-th value numpy computes: `k * step + start` with
      `step = (stop - start) / (num - 1)`, the last value overwritten by
      `stop` when `num > 1`, and `start` itself when `num == 1`. */
  function LinspaceValue(start: real, stop: real, num: nat, k: nat): real
  {
    if num < 2 then start
    else if k + 1 == num then stop
    else k as real * ((stop - start) / (num - 1) as real) + start
  }

  /** The ramp starts at `start` and, with two or more values, ends at
      `stop`; both follow from the definition of `Linspace` alone. */
  lemma LinspaceEnds(start: real, stop: real, num: nat)
    ensures num >= 1 ==> Linspace(start, stop, num)[0] == start
    ensures num >= 2 ==> Linspace(start, stop, num)[num - 1] == stop
  {
  }

  /** The k-th value in closed form: start plus `k / (num - 1)` of the
      distance to `stop`. */
  lemma LinspaceAt(start: real, stop: real, num: nat, k: nat)
    requires 2 <= num && k < num
    ensures LinspaceValue(start, stop, num, k) == start + (k as real / (num - 1) as real) * (stop - start)
  {
    var last := (num - 1) as real;
    if k + 1 < num {
      ScaledStep(start, stop, last, k as real);
    } else {
      assert k as real / last == 1.0;
    }
  }

  lemma ScaledStep(start: real, stop: real, last: real, k: real)
    requires last > 0.0
    ensures k * ((stop - start) / last) + start == start + (k / last) * (stop - start)
  {
  }

  /** A value `t` of the way from `a` to `b`, for `t` in [0, 1], lies
      between them. */
  lemma Between(a: real, b: real, t: real)
    requires 0.0 <= t <= 1.0
    ensures Min(a, b) <= a + t * (b - a) <= Max(a, b)
  {
    var d := if a <= b then b - a else a - b;
    NonnegativeProduct(t, d);
    NonnegativeProduct(1.0 - t, d);
    if a <= b {
      assert a + t * (b - a) == a + t * d == b - (1.0 - t) * d;
    } else {
      assert a + t * (b - a) == a - t * d == b + (1.0 - t) * d;
    }
  }

  lemma UnitFraction(k: real, last: real)
    requires 0.0 <= k <= last && 0.0 < last
    ensures 0.0 <= k / last <= 1.0
  {
    assert k / last * last == k;
  }

  lemma NonnegativeProduct(x: real, y: real)
    requires 0.0 <= x && 0.0 <= y
    ensures 0.0 <= x * y
  {
  }

  /** Every value of a linear ramp lies between its two ends. */
  lemma LinspaceWithin(start: real, stop: real, num: nat, k: nat)
    requires k < num
    ensures Min(start, stop) <= LinspaceValue(start, stop, num, k) <= Max(start, stop)
  {
    if num >= 2 {
      LinspaceAt(start, stop, num, k);
      var t := k as real / (num - 1) as real;
      UnitFraction(k as real, (num - 1) as real);
      Between(start, stop, t);
    }
  }

  /** A ramp between two equal values is constant. */
  lemma LinspaceConstant(value: real, num: nat, k: nat)
    requires k < num
    ensures Linspace(value, value, num)[k] == value
  {
    LinspaceWithin(value, value, num, k);
  }
}
