/** The weekday-by-hour mean profile of a data frame (`predict_by_mean`), and the
    group means it is made of, which the PCA reconstruction reuses. */
module MeanPredictor {
  import opened Wrappers
  import opened Calendar
  import opened Sequences
  import opened Frames

  /** A table indexed by (weekday, hour) keys with one column per station:
      `rows[q][j]` is the value of station `names[j]` at key `keys[q]`. */
  datatype Profile<V> = Profile(keys: seq<CalendarKey>, names: seq<Station>, rows: seq<seq<V>>) {
    predicate Shaped() {
      |rows| == |keys| && forall q :: 0 <= q < |rows| ==> |rows[q]| == |names|
    }
  }

  /** Monday before Sunday, and within a day, the earlier hour first. */
  predicate KeyBefore(a: CalendarKey, b: CalendarKey) {
    a.day < b.day || (a.day == b.day && a.hour < b.hour)
  }

  predicate SortedKeys(keys: seq<CalendarKey>) {
    forall p, q :: 0 <= p < q < |keys| ==> KeyBefore(keys[p], keys[q])
  }

  /** The number of rows whose timestamp has the key `k`. */
  function CountAt(dates: seq<Timestamp>, k: CalendarKey): nat {
    if |dates| == 0 then 0
    else CountAt(dates[..|dates| - 1], k) + (if KeyOf(dates[|dates| - 1]) == k then 1 else 0)
  }

  /** The sum of the values of the rows whose timestamp has the key `k`. */
  function SumAt(dates: seq<Timestamp>, values: seq<real>, k: CalendarKey): real
    requires |dates| == |values|
  {
    if |dates| == 0 then 0.0
    else SumAt(dates[..|dates| - 1], values[..|values| - 1], k)
         + (if KeyOf(dates[|dates| - 1]) == k then values[|values| - 1] else 0.0)
  }

  /** The mean of a station's values over the rows with key `k`; none (NaN) for
      a key no row has. */
  function GroupMean(dates: seq<Timestamp>, values: seq<real>, k: CalendarKey): Option<real>
    requires |dates| == |values|
  {
    if CountAt(dates, k) == 0 then None else Some(SumAt(dates, values, k) / CountAt(dates, k) as real)
  }

  lemma {:induction false} CountPositive(dates: seq<Timestamp>, i: nat)
    requires i < |dates|
    ensures CountAt(dates, KeyOf(dates[i])) > 0
  {
    if i < |dates| - 1 { CountPositive(dates[..|dates| - 1], i); }
  }

  /** The hours of the day some row has, in increasing order, from hour `h` on. */
  function HoursFrom(dates: seq<Timestamp>, h: int): (hs: seq<int>)
    requires 0 <= h <= 24
    ensures forall i :: 0 <= i < |hs| ==> h <= hs[i] < 24
    ensures forall i, j :: 0 <= i < j < |hs| ==> hs[i] < hs[j]
    ensures forall x :: x in hs <==> h <= x < 24 && exists i :: 0 <= i < |dates| && Hour(dates[i]) == x
    decreases 24 - h
  {
    if h == 24 then []
    else (if exists i :: 0 <= i < |dates| && Hour(dates[i]) == h then [h] else []) + HoursFrom(dates, h + 1)
  }

  /** The observed hours of the day, ascending. */
  function ObservedHours(dates: seq<Timestamp>): (hs: seq<int>)
    ensures forall i, j :: 0 <= i < j < |hs| ==> hs[i] < hs[j]
    ensures forall x :: x in hs <==> 0 <= x < 24 && exists i :: 0 <= i < |dates| && Hour(dates[i]) == x
  {
    HoursFrom(dates, 0)
  }

  /** The keys (d, h) for the days from `d` to Sunday and the hours `hs`, ordered
      by day, then by hour. */
  function KeysFrom(hs: seq<int>, d: int): (ks: seq<CalendarKey>)
    requires 0 <= d <= 7
    requires forall i, j :: 0 <= i < j < |hs| ==> hs[i] < hs[j]
    ensures |ks| == (7 - d) * |hs|
    ensures SortedKeys(ks)
    ensures forall k :: k in ks <==> d <= k.day < 7 && k.hour in hs
    decreases 7 - d
  {
    if d == 7 then []
    else
      var day := DayKeys(hs, d);
      var rest := KeysFrom(hs, d + 1);
      day + rest
  }

  /** The keys of day `d` with the hours `hs`, in the order of `hs`. */
  function DayKeys(hs: seq<int>, d: int): (ks: seq<CalendarKey>)
    ensures |ks| == |hs|
    ensures forall i :: 0 <= i < |hs| ==> ks[i] == CalendarKey(d, hs[i])
    ensures forall k: CalendarKey :: k in ks <==> k.day == d && k.hour in hs
  {
    var ks := seq(|hs|, i requires 0 <= i < |hs| => CalendarKey(d, hs[i]));
    assert forall k: CalendarKey :: k.day == d && k.hour in hs ==> k in ks by {
      forall k: CalendarKey | k.day == d && k.hour in hs ensures k in ks {
        var i :| 0 <= i < |hs| && hs[i] == k.hour;
        assert ks[i] == k;
      }
    }
    ks
  }

  /** All 7 × 24 keys, Monday 0h first. */
  function AllKeys(): (ks: seq<CalendarKey>)
    ensures |ks| == 168 && SortedKeys(ks)
    ensures forall k :: k in ks <==> 0 <= k.day < 7 && 0 <= k.hour < 24
  {
    var hs := seq(24, i => i);
    assert forall x :: x in hs <==> 0 <= x < 24 by {
      forall x | 0 <= x < 24 ensures x in hs { assert hs[x] == x; }
    }
    KeysFrom(hs, 0)
  }

  /** `predict_by_mean`: `groupby(['days', 'hours']).mean()` with the day names
      as an ordered categorical of the seven days. Without `observed=True` the
      keys are every weekday, Monday to Sunday, with every observed hour, and a
      weekday-hour pair no row has gets a missing mean. The result is a new
      table, the argument is left as it was. */
  function PredictByMean(df: Frame): (p: Profile<Option<real>>)
    requires df.WellFormed()
    ensures p.Shaped() && p.names == df.names
    ensures |p.keys| == 7 * |ObservedHours(df.dates)|
    ensures SortedKeys(p.keys)
    ensures forall k :: k in p.keys <==> 0 <= k.day < 7 && k.hour in ObservedHours(df.dates)
    ensures forall q, j :: 0 <= q < |p.keys| && 0 <= j < |df.names| ==>
      p.rows[q][j] == GroupMean(df.dates, df.columns[j], p.keys[q])
  {
    var keys := KeysFrom(ObservedHours(df.dates), 0);
    Profile(keys, df.names,
            seq(|keys|, q requires 0 <= q < |keys| =>
              seq(|df.names|, j requires 0 <= j < |df.names| => GroupMean(df.dates, df.columns[j], keys[q]))))
  }

  /** Every timestamp's own (weekday, hour) key is in the mean table and its
      mean is present. */
  lemma MeanTableCoversRows(df: Frame, i: nat, j: nat)
    requires df.WellFormed() && i < |df.dates| && j < |df.names|
    ensures KeyOf(df.dates[i]) in PredictByMean(df).keys
    ensures GroupMean(df.dates, df.columns[j], KeyOf(df.dates[i])).Some?
  {
    assert Hour(df.dates[i]) in ObservedHours(df.dates);
    CountPositive(df.dates, i);
  }

  lemma {:induction false} SumOfProfile(dates: seq<Timestamp>, values: seq<real>, g: CalendarKey -> real, k: CalendarKey)
    requires |dates| == |values|
    requires forall i :: 0 <= i < |dates| ==> values[i] == g(KeyOf(dates[i]))
    ensures SumAt(dates, values, k) == CountAt(dates, k) as real * g(k)
  {
    if |dates| > 0 {
      SumOfProfile(dates[..|dates| - 1], values[..|values| - 1], g, k);
    }
  }

  /** A series whose value depends only on (weekday, hour) is reproduced
      exactly by its mean at every key it visits. */
  lemma MeanReproducesProfile(dates: seq<Timestamp>, values: seq<real>, g: CalendarKey -> real, k: CalendarKey)
    requires |dates| == |values|
    requires forall i :: 0 <= i < |dates| ==> values[i] == g(KeyOf(dates[i]))
    requires CountAt(dates, k) > 0
    ensures GroupMean(dates, values, k) == Some(g(k))
  {
    SumOfProfile(dates, values, g, k);
    var c := CountAt(dates, k) as real;
    var v := g(k);
    assert SumAt(dates, values, k) == c * v;
    assert (c * v) / c == v;
  }

  lemma {:induction false} SumBounds(dates: seq<Timestamp>, values: seq<real>, k: CalendarKey, lo: real, hi: real)
    requires |dates| == |values|
    requires forall i :: 0 <= i < |values| ==> lo <= values[i] <= hi
    ensures CountAt(dates, k) as real * lo <= SumAt(dates, values, k) <= CountAt(dates, k) as real * hi
  {
    if |dates| > 0 {
      var n := |dates| - 1;
      SumBounds(dates[..n], values[..n], k, lo, hi);
      var c := CountAt(dates[..n], k) as real;
      if KeyOf(dates[n]) == k {
        assert CountAt(dates, k) as real == c + 1.0;
        assert (c + 1.0) * lo == c * lo + lo && (c + 1.0) * hi == c * hi + hi;
      }
    }
  }

  /** A mean lies between the smallest and largest value: occupancy ratios in
      [0, 1] give mean profiles in [0, 1]. */
  lemma MeanWithinBounds(dates: seq<Timestamp>, values: seq<real>, k: CalendarKey, lo: real, hi: real)
    requires |dates| == |values|
    requires forall i :: 0 <= i < |values| ==> lo <= values[i] <= hi
    ensures GroupMean(dates, values, k).Some? ==> lo <= GroupMean(dates, values, k).value <= hi
  {
    SumBounds(dates, values, k, lo, hi);
    if CountAt(dates, k) > 0 {
      DivideBounds(SumAt(dates, values, k), CountAt(dates, k) as real, lo, hi);
    }
  }

  lemma DivideBounds(s: real, c: real, lo: real, hi: real)
    requires c > 0.0 && c * lo <= s <= c * hi
    ensures lo <= s / c <= hi
  {
    var m := s / c;
    assert s == m * c;
  }
}
