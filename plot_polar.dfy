/**
 * plot_polar.py: the pass from a start timestamp over a given number of
 * seconds is sampled at length // 90 evenly spaced instants, and every sample
 * is traced and labelled on a polar plot.
 *
 * Instants are seconds since the Unix epoch. The start timestamp is the
 * float the command line gives, so it is a real here.
 */
module PlotPolar {
  import opened Results
  import opened Sky

  /** The nominal sample spacing in seconds. */
  const STEP: int := 90

  datatype Error = NegativeSampleCount(count: int)

  /**
   * The first and last instant of the pass, in whole seconds: the start is cut
   * to its whole second (the second field of the datetime is kept, its
   * microseconds are not) and the end lies length seconds later.
   */
  function PassInterval(start: real, length: int): (iv: (int, int))
    ensures iv.0 as real <= start < iv.0 as real + 1.0
    ensures iv.1 - iv.0 == length
  {
    var t0 := start.Floor;
    (t0, t0 + length)
  }

  /** The number of samples, length // 90 with Python's floor division. */
  function SampleCount(length: int): (n: int)
    ensures STEP * n <= length < STEP * (n + 1)
    ensures n < 0 <==> length < 0
  {
    length / STEP
  }

  /** n evenly spaced instants from t0 to t1, both ends included; [t0] when n is 1. */
  function Linspace(t0: int, t1: int, n: nat): (ts: seq<real>)
    ensures |ts| == n
    ensures n >= 1 ==> ts[0] == t0 as real
    ensures n >= 2 ==> ts[n - 1] == t1 as real
    ensures n >= 2 ==> forall k :: 0 <= k < n - 1 ==>
      ts[k + 1] - ts[k] == (t1 - t0) as real / (n - 1) as real
  {
    if n == 1 then [t0 as real]
    else
      var step := (t1 - t0) as real / (n - 1) as real;
      seq(n, k requires 0 <= k < n => t0 as real + k as real * step)
  }

  /**
   * With at least two samples the spacing length / (n - 1) is more than 90
   * seconds: the samples span the whole pass, so they are not 90 seconds apart.
   */
  lemma SpacingExceedsStep(length: int)
    requires SampleCount(length) >= 2
    ensures length as real / (SampleCount(length) - 1) as real > STEP as real
  {
    var n := SampleCount(length);
    var m := (n - 1) as real;
    assert length as real > STEP as real * m;
    assert length as real / m > STEP as real * m / m;
  }

  /** Index k lies in the window (i, j), both ends included. */
  predicate InWindow(w: (int, int), k: int)
  {
    w.0 <= k <= w.1
  }

  /** The pass window [0, len(t) - 1]: exactly the indices of all samples. */
  function Window(t: seq<real>): (w: (int, int))
    ensures w.1 + 1 - w.0 == |t|
    ensures forall k :: InWindow(w, k) <==> 0 <= k < |t|
  {
    (0, |t| - 1)
  }

  /**
   * plot_sky: the line through samples i .. j, both included (the slices end
   * at j + 1), and one label per sample i <= k <= j.
   */
  method PlotSky(pass: (int, int), t: seq<real>, az: seq<real>, alt: seq<real>)
    returns (plot: Plot<real>)
    requires |az| == |t| && |alt| == |t|
    requires 0 <= pass.0 <= pass.1 + 1 <= |t|
    ensures |plot.trace| == pass.1 + 1 - pass.0 && |plot.labels| == |plot.trace|
    ensures forall n :: 0 <= n < |plot.trace| ==>
      plot.trace[n] == Point(az[pass.0 + n], Radius(alt[pass.0 + n]))
    ensures forall n :: 0 <= n < |plot.labels| ==>
      plot.labels[n] == Label(pass.0 + n, t[pass.0 + n], az[pass.0 + n], Radius(alt[pass.0 + n]))
  {
    var i, j := pass.0, pass.1;
    var theta := az;
    var r := Radii(alt);
    var trace := Trace(theta, r, i, j + 1);
    var labels := LabelRange(t, theta, r, i, j + 1);
    plot := Plot(trace, labels);
  }

  /**
   * The main function from the start timestamp on: the sample instants, the
   * window over all of them and the plot. az and alt are the orbital library's
   * azimuth and elevation at those instants.
   */
  method PlotPass(start: real, length: int, az: seq<real>, alt: seq<real>)
    returns (r: Result<Plot<real>, Error>)
    requires length >= 0 ==> |az| == SampleCount(length) && |alt| == |az|
    ensures r.Err? <==> length < 0
    ensures r.Err? ==> r.error == NegativeSampleCount(SampleCount(length))
    ensures r.Ok? ==>
      var t := Linspace(PassInterval(start, length).0, PassInterval(start, length).1, |alt|);
      && |r.value.trace| == |alt| && |r.value.labels| == |alt|
      && forall k :: 0 <= k < |alt| ==>
           && r.value.trace[k] == Point(az[k], Radius(alt[k]))
           && r.value.labels[k] == Label(k, t[k], az[k], Radius(alt[k]))
  {
    var iv := PassInterval(start, length);
    var n := SampleCount(length);
    if n < 0 {
      return Err(NegativeSampleCount(n));
    }
    var t := Linspace(iv.0, iv.1, n);
    var plot := PlotSky(Window(t), t, az, alt);
    return Ok(plot);
  }
}
