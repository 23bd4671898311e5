/**
 * The progress gate of `on_print_progress` in both plugins: a progress tick is reported only
 * when it is not 0, is a whole multiple of the configured interval, and is not 100 (the print-done
 * event covers completion); an interval setting of 0 stands for 1.
 */
module Progress {
  import opened Wrappers
  import opened Host

  /** Python's `//` on integers, which rounds toward negative infinity. */
  function FloorDiv(a: int, b: int): (q: int)
    requires b != 0
    ensures b > 0 ==> q * b <= a < q * b + b
    ensures b < 0 ==> q * b + b < a <= q * b
  {
    if b > 0 || a % b == 0 then a / b else a / b - 1
  }

  /** `int(setting) or 1`. */
  function EffectiveInterval(setting: Value): (r: Result<int, Error>)
    ensures r.Success? ==> r.value != 0
    ensures setting == Int(0) ==> r == Success(1)
  {
    var n :- IntOf(setting);
    Success(if n == 0 then 1 else n)
  }

  /**
   * The gate as written, with `progress / interval` read as exact division (the float quotient
   * of a progress percentage by an interval is exact whenever it is a whole number).
   */
  predicate Reports(progress: int, interval: int)
    requires interval != 0
  {
    && progress != 0
    && (progress as real) / (interval as real) == FloorDiv(progress, interval) as real
    && progress != 100
  }

  lemma DivisionIsWhole(a: int, b: int)
    requires b != 0
    ensures (a as real) / (b as real) == FloorDiv(a, b) as real <==> a % b == 0
  {
    var q := FloorDiv(a, b);
    var x, y := a as real, b as real;
    assert x / y == q as real <==> x == (q as real) * y;
    assert (q as real) * y == (q * b) as real;
    assert a == b * (a / b) + a % b;
    if a % b == 0 {
      assert q == a / b;
    } else if b > 0 {
      assert q * b == a - a % b;
    } else {
      assert q * b == a - a % b - b;
    }
  }

  /** The gate reports exactly the non-zero multiples of the interval other than 100. */
  lemma ReportsIff(progress: int, interval: int)
    requires interval != 0
    ensures Reports(progress, interval) <==> progress != 0 && progress % interval == 0 && progress != 100
  {
    DivisionIsWhole(progress, interval);
  }

  /** With the default interval 10, the percentages reported are 10, 20, ..., 90 and nothing else. */
  lemma DefaultIntervalReports(progress: int)
    requires 0 <= progress <= 100
    ensures Reports(progress, 10) <==> progress in {10, 20, 30, 40, 50, 60, 70, 80, 90}
  {
    ReportsIff(progress, 10);
  }

  /** An interval setting of 0 behaves as 1: every progress other than 0 and 100 is reported. */
  lemma ZeroIntervalReportsEveryTick(progress: int)
    ensures EffectiveInterval(Int(0)) == Success(1)
    ensures Reports(progress, 1) <==> progress != 0 && progress != 100
  {
    ReportsIff(progress, 1);
  }
}
