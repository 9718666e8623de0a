/**
 * plot_alt_az.py: the pass is sampled every 90 seconds from the start of the
 * start timestamp's minute, the window runs from the first to the last
 * sample above the horizon, and the samples from the first up to, but not
 * including, the last are traced and labelled on a polar plot.
 *
 * Instants are seconds since the Unix epoch. The start timestamp is the
 * float the command line gives, so it is a real here.
 */
module PlotAltAz {
  import opened Results
  import opened Sky

  /** The sample spacing in seconds. */
  const STEP: int := 90

  datatype Error = NoSampleAboveHorizon  // indicies[0] on an empty index array

  /**
   * range(0, length, 90): the multiples of 90 below length, in order, and no
   * others (none at all when length is not positive).
   */
  function Offsets(length: int): (s: seq<int>)
    ensures |s| == 0 <==> length <= 0
    ensures length > 0 ==> STEP * (|s| - 1) < length <= STEP * |s|
    ensures forall k :: 0 <= k < |s| ==> s[k] == STEP * k && s[k] < length
  {
    var n := if length <= 0 then 0 else (length + STEP - 1) / STEP;
    seq(n, k requires 0 <= k < n => STEP * k)
  }

  /** The start of the minute holding the start timestamp: its seconds are dropped. */
  function MinuteStart(start: real): (m: int)
    ensures m % 60 == 0
    ensures m as real <= start < m as real + 60.0
  {
    (start.Floor / 60) * 60
  }

  /** The sample instants: the start's minute plus each offset. */
  function SampleTimes(start: real, length: int): (t: seq<int>)
    ensures |t| == |Offsets(length)|
    ensures |t| > 0 ==> t[0] == MinuteStart(start)
    ensures forall k :: 0 <= k < |t| ==> t[k] == t[0] + STEP * k
  {
    var offsets := Offsets(length);
    seq(|offsets|, k requires 0 <= k < |offsets| => MinuteStart(start) + offsets[k])
  }

  /** The mask alt.degrees > 0. */
  function AboveHorizon(alt: seq<real>): (mask: seq<bool>)
    ensures |mask| == |alt|
    ensures forall k :: 0 <= k < |alt| ==> (mask[k] <==> alt[k] > 0.0)
  {
    seq(|alt|, k requires 0 <= k < |alt| => alt[k] > 0.0)
  }

  /** nonzero() on the first k entries of a mask: the indices that are set, in order. */
  function Nonzero(mask: seq<bool>, k: nat): (ix: seq<nat>)
    requires k <= |mask|
    ensures forall n :: 0 <= n < |ix| ==> ix[n] < k && mask[ix[n]]
    ensures forall n, m :: 0 <= n < m < |ix| ==> ix[n] < ix[m]
    ensures forall j :: 0 <= j < k && mask[j] ==> j in ix
  {
    if k == 0 then []
    else Nonzero(mask, k - 1) + (if mask[k - 1] then [k - 1] else [])
  }

  /**
   * The pass window: the first and the last sample above the horizon. Taking
   * the first of no indices raises.
   */
  function PassWindow(alt: seq<real>): (r: Result<(nat, nat), Error>)
    ensures r.Err? <==> forall k :: 0 <= k < |alt| ==> alt[k] <= 0.0
    ensures r.Err? ==> r.error == NoSampleAboveHorizon
    ensures r.Ok? ==>
      var (i, j) := r.value;
      && i <= j < |alt| && alt[i] > 0.0 && alt[j] > 0.0
      && (forall k :: 0 <= k < i ==> alt[k] <= 0.0)
      && (forall k :: j < k < |alt| ==> alt[k] <= 0.0)
  {
    var mask := AboveHorizon(alt);
    var indices := Nonzero(mask, |mask|);
    if |indices| == 0 then Err(NoSampleAboveHorizon)
    else Ok((indices[0], indices[|indices| - 1]))
  }

  /** The samples between the two ends of the window need not be above the horizon. */
  lemma WindowMayDipBelowHorizon()
    ensures PassWindow([1.0, -1.0, 1.0]) == Ok((0, 2))
  {
    var alt := [1.0, -1.0, 1.0];
    var mask := AboveHorizon(alt);
    assert mask[0] && !mask[1] && mask[2];
    var i0 := Nonzero(mask, 0);
    var i1 := Nonzero(mask, 1);
    var i2 := Nonzero(mask, 2);
    var i3 := Nonzero(mask, 3);
    assert i0 == [];
    assert i1 == i0 + [0] == [0];
    assert i2 == i1;
    assert i3 == i2 + [2];
    assert |i3| == 2 && i3[0] == 0 && i3[1] == 2;
  }

  /**
   * What plot_sky draws for the window (i, j): the line through samples
   * i <= k < j and one label per such sample, carrying its index, time,
   * azimuth and radius.
   */
  predicate Drawn(plot: Plot<int>, t: seq<int>, az: seq<real>, alt: seq<real>, i: nat, j: nat)
    requires |az| == |t| && |alt| == |t| && i <= j <= |t|
  {
    && |plot.trace| == j - i
    && |plot.labels| == j - i
    && (forall n :: 0 <= n < j - i ==> plot.trace[n] == Point(az[i + n], Radius(alt[i + n])))
    && (forall n :: 0 <= n < j - i ==> plot.labels[n] == Label(i + n, t[i + n], az[i + n], Radius(alt[i + n])))
  }

  /**
   * plot_sky: reports t[i] as the rise and t[j] as the set, and traces and
   * labels the samples i <= k < j (the slices and the range end at j), so the
   * sample at j is never drawn.
   */
  method PlotSky(pass: (nat, nat), t: seq<int>, az: seq<real>, alt: seq<real>)
    returns (rises: int, sets: int, plot: Plot<int>)
    requires |az| == |t| && |alt| == |t|
    requires pass.0 <= pass.1 < |t|
    ensures rises == t[pass.0] && sets == t[pass.1]
    ensures Drawn(plot, t, az, alt, pass.0, pass.1)
    ensures forall n :: 0 <= n < |plot.labels| ==> plot.labels[n].index != pass.1
  {
    var i, j := pass.0, pass.1;
    rises, sets := t[i], t[j];
    var theta := az;
    var r := Radii(alt);
    var trace := Trace(theta, r, i, j);
    var labels := LabelRange(t, theta, r, i, j);
    plot := Plot(trace, labels);
  }

  /** What the main function hands on: the window, the reported rise and set, and the plot. */
  datatype PassPlot = PassPlot(first: nat, last: nat, rises: int, sets: int, plot: Plot<int>)

  /**
   * The main function from the offsets on. az and alt are the orbital
   * library's azimuth and elevation at the sample instants.
   */
  method PlotPass(start: real, length: int, az: seq<real>, alt: seq<real>)
    returns (r: Result<PassPlot, Error>)
    requires |alt| == |Offsets(length)| && |az| == |alt|
    ensures r.Err? <==> PassWindow(alt).Err?
    ensures r.Err? ==> r.error == PassWindow(alt).error
    ensures r.Ok? ==> PassWindow(alt) == Ok((r.value.first, r.value.last))
    ensures r.Ok? ==>
      var t, i, j := SampleTimes(start, length), r.value.first, r.value.last;
      r.value.rises == t[i] && r.value.sets == t[j] && alt[j] > 0.0
    ensures r.Ok? ==>
      Drawn(r.value.plot, SampleTimes(start, length), az, alt, r.value.first, r.value.last)
  {
    var t := SampleTimes(start, length);
    var w := PassWindow(alt);
    if w.Err? {
      return Err(w.error);
    }
    var i, j := w.value.0, w.value.1;
    var rises, sets, plot := PlotSky((i, j), t, az, alt);
    return Ok(PassPlot(i, j, rises, sets, plot));
  }
}
