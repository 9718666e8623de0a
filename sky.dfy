/**
 * What the two plot scripts' plot_sky functions hand to the plotting library:
 * a traced line of (theta, radius) points and one text label per sample.
 * Angles stay in degrees; the conversion of azimuth to radians, the time
 * formatting of a label and all drawing are not part of this model.
 */
module Sky {

  /** One vertex of the traced line. */
  datatype Point = Point(theta: real, radius: real)

  /** The label placed at sample `index`, whose text is the formatted `time`. */
  datatype Label<T> = Label(index: nat, time: T, theta: real, radius: real)

  /** The traced line and the labels of one plot. */
  datatype Plot<T> = Plot(trace: seq<Point>, labels: seq<Label<T>>)

  /** The polar radius of an elevation: the zenith is the centre, the horizon the outer ring at 90. */
  function Radius(elevation: real): (r: real)
    ensures 0.0 <= elevation <= 90.0 <==> 0.0 <= r <= 90.0
    ensures elevation == 90.0 <==> r == 0.0
    ensures elevation == 0.0 <==> r == 90.0
  {
    90.0 - elevation
  }

  /** A higher elevation is drawn closer to the centre. */
  lemma RadiusReversesOrder(e1: real, e2: real)
    ensures e1 < e2 <==> Radius(e2) < Radius(e1)
  {
  }

  /** The radius of every sample. */
  function Radii(alt: seq<real>): (r: seq<real>)
    ensures |r| == |alt|
    ensures forall k :: 0 <= k < |alt| ==> r[k] == Radius(alt[k])
  {
    seq(|alt|, k requires 0 <= k < |alt| => Radius(alt[k]))
  }

  /** The line through the points lo .. hi - 1, the slices theta[lo:hi] and r[lo:hi] zipped. */
  function Trace(theta: seq<real>, r: seq<real>, lo: nat, hi: nat): (ps: seq<Point>)
    requires lo <= hi <= |theta| && |r| == |theta|
    ensures |ps| == hi - lo
    ensures forall n :: 0 <= n < |ps| ==> ps[n] == Point(theta[lo + n], r[lo + n])
  {
    seq(hi - lo, n requires 0 <= n < hi - lo => Point(theta[lo + n], r[lo + n]))
  }

  /** The label loop `for k in range(lo, hi)`: one label per sample index lo <= k < hi, in order. */
  method LabelRange<T>(t: seq<T>, theta: seq<real>, r: seq<real>, lo: nat, hi: nat)
    returns (labels: seq<Label<T>>)
    requires lo <= hi <= |t| && |theta| == |t| && |r| == |t|
    ensures |labels| == hi - lo
    ensures forall n :: 0 <= n < |labels| ==>
      labels[n] == Label(lo + n, t[lo + n], theta[lo + n], r[lo + n])
  {
    labels := [];
    for k := lo to hi
      invariant |labels| == k - lo
      invariant forall n :: 0 <= n < |labels| ==>
        labels[n] == Label(lo + n, t[lo + n], theta[lo + n], r[lo + n])
    {
      labels := labels + [Label(k, t[k], theta[k], r[k])];
    }
  }
}
