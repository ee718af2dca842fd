/** What the tree and linear strategies feed their regressors for one station:
    the rows left after the interpolated ones are dropped, and the calendar
    columns `hour, day_of_week, day_of_month, month, is_weekend, is_sunday`
    with the station's cluster id. */
module StationFeatures {
  import opened Calendar
  import opened Sequences

  /** The positions `df_station.drop(interpolated_indices)` keeps of a
      `reset_index()` frame of `n` rows, in order. */
  function KeptPositions(n: nat, dropped: set<nat>): (r: seq<nat>)
    ensures forall i :: 0 <= i < |r| ==> r[i] < n
  {
    if n == 0 then []
    else KeptPositions(n - 1, dropped) + (if n - 1 in dropped then [] else [n - 1])
  }

  /** A position is kept exactly when it is a row and not dropped. */
  lemma {:induction false} KeptPositionsMembers(n: nat, dropped: set<nat>)
    ensures forall p: nat :: p in KeptPositions(n, dropped) <==> p < n && p !in dropped
  {
    if n > 0 {
      KeptPositionsMembers(n - 1, dropped);
      var prev, last := KeptPositions(n - 1, dropped), if n - 1 in dropped then [] else [n - 1];
      assert KeptPositions(n, dropped) == prev + last;
      forall p: nat ensures p in prev + last <==> p < n && p !in dropped {
        assert p in prev + last <==> p in prev || p in last;
      }
    }
  }

  /** The kept positions are strictly increasing, so keeping them preserves the
      order of the rows. */
  lemma {:induction false} KeptPositionsIncreasing(n: nat, dropped: set<nat>)
    ensures forall a, b :: 0 <= a < b < |KeptPositions(n, dropped)| ==>
      KeptPositions(n, dropped)[a] < KeptPositions(n, dropped)[b]
  {
    if n > 0 {
      KeptPositionsIncreasing(n - 1, dropped);
      var r, prev := KeptPositions(n, dropped), KeptPositions(n - 1, dropped);
      forall a, b | 0 <= a < b < |r| ensures r[a] < r[b] {
        assert r[a] == prev[a];
        if b < |prev| { assert r[b] == prev[b]; } else { assert r[b] == n - 1; }
      }
    }
  }

  /** With nothing to drop, every row is kept. */
  lemma {:induction false} KeptPositionsOfNone(n: nat, dropped: set<nat>)
    requires forall p :: p in dropped ==> p >= n
    ensures KeptPositions(n, dropped) == seq(n, i => i)
  {
    if n > 0 {
      KeptPositionsOfNone(n - 1, dropped);
      assert seq(n, i => i) == seq(n - 1, i => i) + [n - 1];
    }
  }

  /** Kept row `i` is at least `k` rows, hence at least `k` hours of an hourly
      axis, after kept row `i - k`. */
  lemma {:induction false} KeptPositionsGap(n: nat, dropped: set<nat>, i: nat, k: nat)
    requires k <= i < |KeptPositions(n, dropped)|
    ensures KeptPositions(n, dropped)[i - k] + k <= KeptPositions(n, dropped)[i]
  {
    if k > 0 {
      KeptPositionsGap(n, dropped, i, k - 1);
      KeptPositionsIncreasing(n, dropped);
    }
  }

  /** `s.iloc[pos]` */
  function Pick<T>(s: seq<T>, pos: seq<nat>): (r: seq<T>)
    requires forall i :: 0 <= i < |pos| ==> pos[i] < |s|
    ensures |r| == |pos| && forall i :: 0 <= i < |pos| ==> r[i] == s[pos[i]]
  {
    seq(|pos|, i requires 0 <= i < |pos| => s[pos[i]])
  }

  /** The values of `y` at the kept positions, `df_station['y']` after the drop. */
  function KeptValues(y: seq<real>, dropped: set<nat>): (r: seq<real>)
    ensures var kept := KeptPositions(|y|, dropped);
      |r| == |kept| && forall i :: 0 <= i < |kept| ==> r[i] == y[kept[i]]
  {
    Pick(y, KeptPositions(|y|, dropped))
  }

  /** The calendar columns of one row and the station's cluster id. */
  datatype CalendarRow = CalendarRow(hour: int, dayOfWeek: int, dayOfMonth: int, month: int,
                                     isWeekend: bool, isSunday: bool, stationCluster: int)

  function CalendarRowOf(t: Timestamp, cluster: int): (row: CalendarRow)
    ensures 0 <= row.hour < 24 && 0 <= row.dayOfWeek < 7
    ensures 1 <= row.dayOfMonth <= 31 && 1 <= row.month <= 12
    ensures row.isWeekend <==> row.dayOfWeek >= 5
    ensures row.isSunday <==> row.dayOfWeek == 6
    ensures row.stationCluster == cluster
  {
    CalendarRow(Hour(t), DayOfWeek(t), DayOfMonth(t), Month(t), DayOfWeek(t) >= 5, DayOfWeek(t) == 6, cluster)
  }
}
