# Satellite pass tables and pass plots, in Dafny

This project models the index and sequence handling of three satellite-pass
scripts. The orbital computations themselves are done by an external orbital
library and stay outside the model.

- `pass_times.py` prints one table row per satellite pass. The library's
  event search returns two parallel arrays: event codes (0 rise,
  1 culmination, 2 set) and their instants. The script first drops a leading
  partial pass. It then walks the events, remembering the most recent rise,
  and prints a row at every set: rise time, stop time, epoch timestamp of the
  rise and the duration in whole seconds (`timedelta.seconds`).
  Module `PassTimes`.
- `plot_polar.py` samples a pass of a given length at `length // 90` evenly
  spaced instants. It traces and labels every sample on a polar plot, with
  radius `90 - elevation`. Module `PlotPolar`.
- `plot_alt_az.py` samples every 90 seconds from the start of the start
  timestamp's minute. The window runs from the first to the last sample above
  the horizon. It then traces and labels the samples from the first one up
  to, but not including, the last one. Module `PlotAltAz`.
- The parts of the two `plot_sky` functions that are shared (radius, the
  traced line, the label loop) are in module `Sky`. `Results` holds the
  Option and Result types.

Instants in `PassTimes` are whole microseconds since the Unix epoch. That is
the resolution of a Python `datetime`, and it lets the truncation of the
duration column be stated exactly. Instants in `PlotAltAz`, and the two ends
of the `PlotPolar` pass, are whole seconds; the start timestamp they come from
is the command-line float, modelled as a `real`. `PlotPolar`'s sample grid
between those ends is real-valued: it divides the pass evenly, so its instants
need not be whole seconds.
Azimuths and elevations are `real` degrees.

Behaviour of the scripts worth knowing, which the model keeps:

- An empty event array raises `IndexError`; it does not give an empty table.
  So does an array whose only event is a set, because it is empty once that
  set is dropped.
- A set seen before any rise raises (`dt0` is unbound). A trailing rise with
  no set is silently ignored; it is not reported as a truncated pass.
- `plot_polar.py` spaces its samples `length / (n - 1)` seconds apart, which
  is more than 90 seconds whenever there are two or more samples (lemma
  `SpacingExceedsStep`).
- `plot_alt_az.py` reports the last above-horizon sample as the set but does
  not draw or label it.
- The trimming of a leading partial pass assumes one culmination per pass.
  When the stream opens with more than one culmination and then reaches a set
  before any rise, trimming drops only two events, and the row loop raises at
  that set (lemma `LeadingCulminationsRaise`; `LeadingDoubleCulmination` is a
  concrete case).

## Model

| member | source | states |
|---|---|---|
| `PassTimes.Trim` | pass_times.py:63-72 | Trimming fails exactly on an empty array, or on a single set; the error says which. Otherwise both arrays lose the same leading count and stay aligned. A leading set alone removes one element. A set then a culmination removes three. A leading culmination removes two. Any other first event removes nothing. |
| `PassTimes.TrimStartsAtRise` | pass_times.py:66-72 | A stream in the library's rise, culmination, set order with one culmination per pass, entered at any point, starts at a rise after trimming and keeps that order. |
| `PassTimes.TrimExamples` | pass_times.py:66-72 | [set, rise, culmination, set] trims to [rise, culmination, set]. [culmination, set, rise, set] trims to [rise, set]. Times follow their events. |
| `PassTimes.LeadingDoubleCulmination` | pass_times.py:66-80 | [culmination, culmination, set, rise, culmination, set] is not in the usual order; it trims to [set, rise, culmination, set], whose first set has no rise before it, so not every set is preceded by a rise and the row loop raises there. |
| `PassTimes.LeadingCulminationsRaise` | pass_times.py:66-80 | Whenever a stream opens with two or more culminations and reaches a set before any rise, trimming drops exactly the first two events, and the trimmed stream holds a set with no rise before it, so the row loop raises. |
| `PassTimes.TimedeltaSeconds` | pass_times.py:84 | The duration column is always in 0..86399. It is the whole seconds of the duration taken modulo one day, with the fraction dropped. For a duration under a day, that is the duration's whole seconds. |
| `PassTimes.MakeRow` | pass_times.py:80-84 | The row starts at the rise. Its stop (rise + (set - rise)) is the set instant. Its timestamp is the rise in seconds. Its seconds column is `timedelta.seconds` of the duration: the duration's whole seconds taken modulo one day, so it is the truncated duration when the pass is shorter than a day and wraps around for longer ones. |
| `PassTimes.LastRise` | pass_times.py:74-79 | Finds the index of the most recent rise before position k, and no rise lies between that index and k. When there is none, no earlier event is a rise. Culminations and sets never change it. |
| `PassTimes.SetIndices` | pass_times.py:74-80 | Lists, in increasing order, exactly the indices of the sets before position k. |
| `PassTimes.BuildRows` | pass_times.py:74-84 | The loop succeeds exactly when every set has an earlier rise. On success it emits one row per set, in order, each built from the most recent rise before that set. On failure, the reported index holds the first set, and no rise or set comes before it. |
| `PassTimes.PassTable` | pass_times.py:63-84 | Trimming errors are returned unchanged. Otherwise the result is the row loop's result on the trimmed stream. A stream in the library's usual order (one culmination per pass) never fails in the loop. |
| `PassTimes.CyclicSetIndices` | pass_times.py:74-80 | In a stream that starts at a rise and keeps the usual order, the first k events hold k / 3 sets, and the n-th of them is at 3n + 2. |
| `PassTimes.CyclicRows` | pass_times.py:74-84 | For such a stream, every set has a rise before it. The rows are exactly len / 3 rows, and row n runs from times[3n] to times[3n + 2]. |
| `PassTimes.RowsInOrder` | pass_times.py:74-84 | When event times are in order, no row starts after it stops. |
| `Sky.Radius` | plot_polar.py:49 | Radius is 90 - elevation: elevation 90 gives 0, elevation 0 gives 90, and elevations in 0..90 give exactly the radii in 0..90. |
| `Sky.RadiusReversesOrder` | plot_polar.py:49 | A higher elevation gets a smaller radius. |
| `Sky.Radii` | plot_alt_az.py:51 | Each sample's radius is the radius of its elevation; the radius array has one entry per sample. |
| `Sky.Trace` | plot_polar.py:50 | The traced line of slices [lo:hi] has hi - lo points; point n is the azimuth and radius of sample lo + n. |
| `Sky.LabelRange` | plot_polar.py:51-53 | The label loop over range(lo, hi) gives exactly one label per index lo <= k < hi, in order, each carrying sample k's time, azimuth and radius. |
| `PlotPolar.PassInterval` | plot_polar.py:70-74 | The start is cut to its whole second. The end is exactly length seconds after it. |
| `PlotPolar.SampleCount` | plot_polar.py:75 | The sample count n is length // 90, so 90n <= length < 90(n + 1). It is negative exactly when length is. |
| `PlotPolar.Linspace` | plot_polar.py:75 | The grid has n instants. The first is t0, the last is t1 (when n >= 2), and consecutive instants are all (t1 - t0) / (n - 1) apart. |
| `PlotPolar.SpacingExceedsStep` | plot_polar.py:75 | With two or more samples, their spacing length / (n - 1) is more than 90 seconds. |
| `PlotPolar.Window` | plot_polar.py:81 | The window [0, len(t) - 1] contains exactly the indices of all samples and has len(t) of them. |
| `PlotPolar.PlotSky` | plot_polar.py:38-53 | Samples i..j, both included, are traced. Each gets exactly one label carrying its index, time, azimuth and radius 90 - elevation. |
| `PlotPolar.PlotPass` | plot_polar.py:70-81 | A negative length fails with the negative sample count. Otherwise every sample is traced and labelled, at the evenly spaced instant it was sampled at. |
| `PlotAltAz.Offsets` | plot_alt_az.py:72 | The offsets are the multiples of 90 below length, in order. There are none when length <= 0; otherwise there are ceil(length / 90). |
| `PlotAltAz.MinuteStart` | plot_alt_az.py:73-75 | The base instant is a whole minute. It is at or before the start, and less than 60 s before it. |
| `PlotAltAz.SampleTimes` | plot_alt_az.py:72-75 | There is one sample per offset. The first is at the start's minute, and sample k is 90k seconds after the first. |
| `PlotAltAz.AboveHorizon` | plot_alt_az.py:82 | A sample is marked as above the horizon exactly when its elevation is strictly positive. |
| `PlotAltAz.Nonzero` | plot_alt_az.py:84 | Lists, in increasing order, exactly the indices where the mask is set. |
| `PlotAltAz.PassWindow` | plot_alt_az.py:82-86 | Fails exactly when no sample is above the horizon. Otherwise it returns (i, j) with i <= j, both above the horizon, and no sample above the horizon before i or after j. |
| `PlotAltAz.WindowMayDipBelowHorizon` | plot_alt_az.py:84-86 | For elevations [1, -1, 1] the window is (0, 2), although sample 1 is below the horizon. |
| `PlotAltAz.PlotSky` | plot_alt_az.py:38-55 | t[i] is reported as the rise and t[j] as the set. Only samples i <= k < j are traced and labelled, so sample j is never drawn. |
| `PlotAltAz.PlotPass` | plot_alt_az.py:72-86 | Fails exactly when the window selection fails, with its error. Otherwise it returns the window (i, j) of the above-horizon samples. The rise is reported at t[i] and the set at t[j], an above-horizon sample. The traced line and the labels cover exactly i..j-1: point n is the azimuth and radius of sample i + n, and label n carries that sample's index, time, azimuth and radius. |

## Left out

- Command-line parsing, reading the element file and its three-line check, and the table header (pass_times.py:11-45 and the matching lines of the plot scripts): input/output plumbing.
- The orbital library: satellite construction, the event search, position and azimuth/elevation computation, and its time scale. Its outputs are inputs here: the event and time arrays, and the azimuth and elevation arrays. Their lengths are required to match the instants they belong to.
- Time zones, `astimezone`, `strftime` and `utcfromtimestamp`: instants are epoch numbers, and label texts are the instants themselves. The printed stop time keeps the rise's UTC offset, which shows only in formatting.
- The conversion of the command-line float and of the library's times to microseconds or seconds is exact here. Floating-point rounding is not modelled.
- `PlotPolar.Linspace`: the grid is exact real arithmetic. The library's split of each instant into whole and fractional days, and float rounding, are not modelled.
- `PlotPolar.PlotPass`: the failure for a negative length relies on the numeric library rejecting a negative sample count. That code is not part of this model.
- The conversion of azimuth to radians: theta is kept in degrees.
- All drawing (subplot, radial limits, plot, text, show), and the printing of the rise and set lines, whose values `PlotAltAz.PlotSky` returns instead.
