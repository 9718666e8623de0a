/**
 * The report table of pass_times.py: the event stream found by the orbital
 * library is trimmed so that it starts at a rise, and one row is printed for
 * every set, built from the most recent rise.
 *
 * Instants are whole microseconds since the Unix epoch, the resolution of the
 * Python datetime values the script works with. Conversion to a time zone and
 * formatting with strftime are not part of this model.
 */
module PassTimes {
  import opened Results

  /** Microseconds since the Unix epoch. */
  type Instant = int

  const US_PER_SECOND: int := 1_000_000
  const SECONDS_PER_DAY: int := 86_400
  const US_PER_DAY: int := 86_400_000_000

  /** The event codes of the orbital library's event search. */
  const RISE: int := 0
  const CULMINATION: int := 1
  const SET: int := 2

  /** Two parallel arrays: events[k] happened at times[k]. */
  datatype Stream = Stream(events: seq<int>, times: seq<Instant>)

  /**
   * One printed line: start time, stop time, the epoch timestamp of the start
   * (in seconds, as the float datetime.timestamp() gives) and the whole seconds
   * of the pass.
   */
  datatype Row = Row(start: Instant, stop: Instant, stamp: real, secs: int)

  datatype Error =
    | NoEvents                  // events[0] on an empty array
    | NoEventsAfterLeadingSet   // events[0] after the only event, a set, was dropped
    | SetBeforeRise(index: nat) // a set reached before any rise gave the rise time a value

  /** Python's s[n:]: the elements from index n on, empty when n is past the end. */
  function Tail<T>(s: seq<T>, n: nat): (r: seq<T>)
    ensures n <= |s| ==> r == s[n..]
    ensures n > |s| ==> r == []
  {
    if n <= |s| then s[n..] else []
  }

  /** The trimmed stream is what is left of both arrays after dropping the same leading count. */
  predicate Aligned(events: seq<int>, times: seq<Instant>, s: Stream)
    requires |events| == |times|
  {
    && |s.events| == |s.times| <= |events|
    && s.events == events[|events| - |s.events|..]
    && s.times == times[|times| - |s.times|..]
  }

  /**
   * The library's usual order: rise, culmination, set, over and over, with
   * exactly one culmination per pass, entered at any point. A pass with two
   * culminations breaks it (see LeadingDoubleCulmination).
   */
  predicate Cyclic(events: seq<int>)
  {
    |events| > 0 ==>
      && 0 <= events[0] < 3
      && forall k :: 0 <= k < |events| ==> events[k] == (events[0] + k) % 3
  }

  /** Rise, culmination, set, over and over, starting at a rise. */
  predicate StartsAtRise(events: seq<int>)
  {
    forall k :: 0 <= k < |events| ==> events[k] == k % 3
  }

  /**
   * Dropping a leading partial pass: a leading set is dropped, then a leading
   * culmination is dropped together with the event after it. Looking at the
   * first event of an empty array raises.
   */
  function Trim(events: seq<int>, times: seq<Instant>): (r: Result<Stream, Error>)
    requires |events| == |times|
    ensures r.Err? <==> |events| == 0 || (|events| == 1 && events[0] == SET)
    ensures r.Err? ==> r.error == if |events| == 0 then NoEvents else NoEventsAfterLeadingSet
    ensures r.Ok? ==> Aligned(events, times, r.value)
    ensures r.Ok? && events[0] != SET && events[0] != CULMINATION ==>
      r.value == Stream(events, times)
    ensures r.Ok? && events[0] == SET && events[1] != CULMINATION ==>
      r.value == Stream(events[1..], times[1..])
    ensures r.Ok? && events[0] == SET && events[1] == CULMINATION ==>
      r.value == Stream(Tail(events, 3), Tail(times, 3))
    ensures r.Ok? && events[0] == CULMINATION ==>
      r.value == Stream(Tail(events, 2), Tail(times, 2))
  {
    if |events| == 0 then Err(NoEvents)
    else
      var s := if events[0] == SET then Stream(events[1..], times[1..]) else Stream(events, times);
      if |s.events| == 0 then Err(NoEventsAfterLeadingSet)
      else if s.events[0] == CULMINATION then Ok(Stream(Tail(s.events, 2), Tail(s.times, 2)))
      else Ok(s)
  }

  /** A cyclic stream entered at one of its rises starts at a rise. */
  lemma CycleFromRise(events: seq<int>, d: nat)
    requires Cyclic(events) && d < |events| && events[d] == RISE
    ensures StartsAtRise(events[d..])
  {
    var s := events[d..];
    var q := (events[0] + d) / 3;
    assert events[0] + d == 3 * q;
    forall k | 0 <= k < |s|
      ensures s[k] == k % 3
    {
      assert s[k] == events[d + k] == (3 * q + k) % 3;
    }
  }

  /** Trimming a stream in the library's usual order leaves one that starts at a rise. */
  lemma TrimStartsAtRise(events: seq<int>, times: seq<Instant>)
    requires |events| == |times| && Cyclic(events)
    requires Trim(events, times).Ok?
    ensures StartsAtRise(Trim(events, times).value.events)
  {
    var s := Trim(events, times).value.events;
    var d := |events| - |s|;
    assert s == events[d..];
    if s != [] {
      assert events[0] == SET ==> events[1] == RISE;
      assert events[0] == CULMINATION ==> events[1] == SET && (|events| > 2 ==> events[2] == RISE);
      assert events[d] == RISE;
      CycleFromRise(events, d);
    }
  }

  /** The duration column: timedelta.seconds, the seconds field of a normalised timedelta. */
  function TimedeltaSeconds(d: int): (s: int)
    ensures 0 <= s < SECONDS_PER_DAY
    ensures s * US_PER_SECOND <= d % US_PER_DAY < (s + 1) * US_PER_SECOND
    ensures 0 <= d < US_PER_DAY ==> s * US_PER_SECOND <= d < (s + 1) * US_PER_SECOND
  {
    (d % US_PER_DAY) / US_PER_SECOND
  }

  /** The row printed at a set, from the remembered rise instant and the set instant. */
  function MakeRow(rise: Instant, setting: Instant): (row: Row)
    ensures row.start == rise && row.stop == setting
    ensures row.stamp * US_PER_SECOND as real == rise as real
    ensures 0 <= row.secs < SECONDS_PER_DAY
    ensures row.secs == TimedeltaSeconds(setting - rise)
    ensures 0 <= setting - rise < US_PER_DAY ==>
      row.secs * US_PER_SECOND <= setting - rise < (row.secs + 1) * US_PER_SECOND
  {
    var duration := setting - rise;   // dt3 = dt1 - dt0
    var stop := rise + duration;  // dt4 = dt2 + dt3
    Row(rise, stop, rise as real / US_PER_SECOND as real, TimedeltaSeconds(duration))
  }

  /** The index of the last rise among the first k events, if there is one. */
  function LastRise(events: seq<int>, k: nat): (r: Option<nat>)
    requires k <= |events|
    ensures r.Some? ==>
      && r.value < k && events[r.value] == RISE
      && forall j :: r.value < j < k ==> events[j] != RISE
    ensures r.None? ==> forall j :: 0 <= j < k ==> events[j] != RISE
  {
    if k == 0 then None
    else if events[k - 1] == RISE then Some(k - 1)
    else LastRise(events, k - 1)
  }

  /** The indices of the sets among the first k events, in order. */
  function SetIndices(events: seq<int>, k: nat): (r: seq<nat>)
    requires k <= |events|
    ensures forall n :: 0 <= n < |r| ==> r[n] < k && events[r[n]] == SET
    ensures forall n, m :: 0 <= n < m < |r| ==> r[n] < r[m]
    ensures forall j :: 0 <= j < k && events[j] == SET ==> j in r
  {
    if k == 0 then []
    else SetIndices(events, k - 1) + (if events[k - 1] == SET then [k - 1] else [])
  }

  /** Every set among the first k events comes after some rise. */
  predicate RisesPrecedeSets(events: seq<int>, k: nat)
    requires k <= |events|
  {
    forall j :: 0 <= j < k && events[j] == SET ==> LastRise(events, j).Some?
  }

  /** Index k holds the first set, and no rise comes before it. */
  predicate FirstSetBeforeRise(events: seq<int>, k: nat)
  {
    && k < |events| && events[k] == SET
    && forall j :: 0 <= j < k ==> events[j] != RISE && events[j] != SET
  }

  /**
   * The rows printed for the first k events: one per set, in order, each
   * built from the most recent rise before that set.
   */
  predicate RowsUpTo(events: seq<int>, times: seq<Instant>, k: nat, rows: seq<Row>)
    requires |events| == |times| && k <= |events|
  {
    var sets := SetIndices(events, k);
    && |rows| == |sets|
    && forall n :: 0 <= n < |rows| ==>
         && LastRise(events, sets[n]).Some?
         && rows[n] == MakeRow(times[LastRise(events, sets[n]).value], times[sets[n]])
  }

  /** The loop over the trimmed stream that prints one row per set. */
  method BuildRows(events: seq<int>, times: seq<Instant>) returns (r: Result<seq<Row>, Error>)
    requires |events| == |times|
    ensures r.Ok? <==> RisesPrecedeSets(events, |events|)
    ensures r.Ok? ==> RowsUpTo(events, times, |events|, r.value)
    ensures r.Err? ==> r.error.SetBeforeRise? && FirstSetBeforeRise(events, r.error.index)
  {
    var rows: seq<Row> := [];
    var rise: Option<Instant> := None;  // dt0, and dt2, which holds the same instant
    for k := 0 to |events|
      invariant RisesPrecedeSets(events, k)
      invariant rise.Some? <==> LastRise(events, k).Some?
      invariant rise.Some? ==> rise.value == times[LastRise(events, k).value]
      invariant RowsUpTo(events, times, k, rows)
    {
      if events[k] == RISE {
        rise := Some(times[k]);
      } else if events[k] == SET {
        if rise.None? {
          return Err(SetBeforeRise(k));
        }
        rows := rows + [MakeRow(rise.value, times[k])];
      }
    }
    return Ok(rows);
  }

  /** The trimming and the row loop of the script's main function. */
  method PassTable(events: seq<int>, times: seq<Instant>) returns (r: Result<seq<Row>, Error>)
    requires |events| == |times|
    ensures Trim(events, times).Err? ==> r == Err(Trim(events, times).error)
    ensures Trim(events, times).Ok? ==>
      var s := Trim(events, times).value;
      && (r.Ok? <==> RisesPrecedeSets(s.events, |s.events|))
      && (r.Ok? ==> RowsUpTo(s.events, s.times, |s.events|, r.value))
      && (r.Err? ==> r.error.SetBeforeRise? && FirstSetBeforeRise(s.events, r.error.index))
    ensures Cyclic(events) && Trim(events, times).Ok? ==> r.Ok?
  {
    var ev, ts := events, times;
    if |ev| == 0 {
      return Err(NoEvents);
    }
    if ev[0] == SET {
      ev, ts := ev[1..], ts[1..];
    }
    if |ev| == 0 {
      return Err(NoEventsAfterLeadingSet);
    }
    if ev[0] == CULMINATION {
      ev, ts := Tail(ev, 2), Tail(ts, 2);
    }
    assert Trim(events, times) == Ok(Stream(ev, ts));
    if Cyclic(events) {
      TrimStartsAtRise(events, times);
      CyclicRows(ev, ts, []);
    }
    r := BuildRows(ev, ts);
  }

  /** In a stream that starts at a rise, the n-th set is at index 3n + 2. */
  lemma {:induction false} CyclicSetIndices(events: seq<int>, k: nat)
    requires StartsAtRise(events) && k <= |events|
    ensures |SetIndices(events, k)| == k / 3
    ensures forall n :: 0 <= n < k / 3 ==> SetIndices(events, k)[n] == 3 * n + 2
  {
    if k > 0 {
      CyclicSetIndices(events, k - 1);
      var q, rem := (k - 1) / 3, (k - 1) % 3;
      assert k - 1 == 3 * q + rem && 0 <= rem < 3;
      assert events[k - 1] == rem;
      if rem == 2 {
        assert k / 3 == q + 1 && k - 1 == 3 * q + 2;
      } else {
        assert k / 3 == q;
      }
    }
  }

  /**
   * A stream in the library's usual order, starting at a rise, never reaches
   * a set without a rise, and its n-th row runs from times[3n] to times[3n + 2].
   */
  lemma CyclicRows(events: seq<int>, times: seq<Instant>, rows: seq<Row>)
    requires StartsAtRise(events) && |times| == |events|
    ensures RisesPrecedeSets(events, |events|)
    ensures RowsUpTo(events, times, |events|, rows) <==>
      && |rows| == |events| / 3
      && forall n :: 0 <= n < |rows| ==> rows[n] == MakeRow(times[3 * n], times[3 * n + 2])
  {
    forall j | 0 <= j < |events| && j % 3 == 2
      ensures LastRise(events, j) == Some(j - 2)
    {
      assert events[j - 1] == CULMINATION && events[j - 2] == RISE;
      assert LastRise(events, j) == LastRise(events, j - 1);
    }
    CyclicSetIndices(events, |events|);
  }
  /** The two leading-partial-pass cases: a set alone, and a culmination with the set after it. */
  lemma TrimExamples(t1: Instant, t2: Instant, t3: Instant, t4: Instant)
    ensures Trim([SET, RISE, CULMINATION, SET], [t1, t2, t3, t4])
      == Ok(Stream([RISE, CULMINATION, SET], [t2, t3, t4]))
    ensures Trim([CULMINATION, SET, RISE, SET], [t1, t2, t3, t4])
      == Ok(Stream([RISE, SET], [t3, t4]))
  {
    assert [SET, RISE, CULMINATION, SET][1..] == [RISE, CULMINATION, SET];
    assert [t1, t2, t3, t4][1..] == [t2, t3, t4];
    assert [CULMINATION, SET, RISE, SET][2..] == [RISE, SET];
    assert [t1, t2, t3, t4][2..] == [t3, t4];
  }

  /**
   * A leading pass with two culminations is not in the usual order: trimming
   * drops only the first culmination and the set, so the trimmed stream
   * starts at a set, which the row loop rejects.
   */
  lemma LeadingDoubleCulmination(t1: Instant, t2: Instant, t3: Instant, t4: Instant, t5: Instant, t6: Instant)
    ensures !Cyclic([CULMINATION, CULMINATION, SET, RISE, CULMINATION, SET])
    ensures Trim([CULMINATION, CULMINATION, SET, RISE, CULMINATION, SET], [t1, t2, t3, t4, t5, t6])
      == Ok(Stream([SET, RISE, CULMINATION, SET], [t3, t4, t5, t6]))
    ensures FirstSetBeforeRise([SET, RISE, CULMINATION, SET], 0)
    ensures !RisesPrecedeSets([SET, RISE, CULMINATION, SET], 4)
  {
    var events := [CULMINATION, CULMINATION, SET, RISE, CULMINATION, SET];
    assert events[1] != (events[0] + 1) % 3;
    assert events[2..] == [SET, RISE, CULMINATION, SET];
    assert [t1, t2, t3, t4, t5, t6][2..] == [t3, t4, t5, t6];
  }

  /**
   * In general: when a stream opens with two or more culminations and then
   * reaches a set before any rise (a partial pass with more than one
   * culmination), trimming drops only two events, and the trimmed stream
   * holds a set with no rise before it, so the row loop raises.
   */
  lemma LeadingCulminationsRaise(events: seq<int>, times: seq<Instant>, s: nat)
    requires |events| == |times|
    requires 2 <= s < |events| && events[s] == SET
    requires events[0] == CULMINATION && events[1] == CULMINATION
    requires forall k :: 2 <= k < s ==> events[k] != RISE
    ensures Trim(events, times) == Ok(Stream(events[2..], times[2..]))
    ensures !RisesPrecedeSets(events[2..], |events| - 2)
  {
    var trimmed := events[2..];
    assert trimmed[s - 2] == SET;
    assert forall j :: 0 <= j < s - 2 ==> trimmed[j] == events[j + 2];
    assert LastRise(trimmed, s - 2).None?;
  }

  /** When the event times are in order, every row starts no later than it stops. */
  lemma RowsInOrder(events: seq<int>, times: seq<Instant>, rows: seq<Row>)
    requires |events| == |times| && RowsUpTo(events, times, |events|, rows)
    requires forall a, b :: 0 <= a <= b < |times| ==> times[a] <= times[b]
    ensures forall n :: 0 <= n < |rows| ==> rows[n].start <= rows[n].stop
  {
    var sets := SetIndices(events, |events|);
    forall n | 0 <= n < |rows|
      ensures rows[n].start <= rows[n].stop
    {
      var rise := LastRise(events, sets[n]).value;
      assert rows[n] == MakeRow(times[rise], times[sets[n]]);
    }
  }
}
