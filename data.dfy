/** The selections of a city's hourly frame used by the pages: the rows between
    two dates, and the masked correlation table of selected stations. */
module Data {
  import opened Wrappers
  import opened Calendar
  import opened Sequences
  import opened Frames

  // ---------------------------------------------------------------------------
  // get_data_between_dates

  /** The positions, in order, of the timestamps `t` with `lo <= t < hi`. */
  function PositionsBetween(dates: seq<Timestamp>, lo: Timestamp, hi: Timestamp): (r: seq<nat>)
    ensures forall i :: 0 <= i < |r| ==> r[i] < |dates|
  {
    if |dates| == 0 then []
    else
      var n := |dates| - 1;
      PositionsBetween(dates[..n], lo, hi) + (if lo <= dates[n] < hi then [n] else [])
  }

  /** A row is selected exactly when its timestamp is in the window. */
  lemma {:induction false} PositionsBetweenMembers(dates: seq<Timestamp>, lo: Timestamp, hi: Timestamp)
    ensures forall p: nat :: p in PositionsBetween(dates, lo, hi) <==> p < |dates| && lo <= dates[p] < hi
  {
    if |dates| > 0 {
      var n := |dates| - 1;
      PositionsBetweenMembers(dates[..n], lo, hi);
      var prev, last := PositionsBetween(dates[..n], lo, hi), if lo <= dates[n] < hi then [n] else [];
      forall p: nat ensures p in prev + last <==> p < |dates| && lo <= dates[p] < hi {
        assert p in prev + last <==> p in prev || p in last;
        if p < n { assert dates[..n][p] == dates[p]; }
      }
    }
  }

  /** The selected positions are strictly increasing: the filter keeps the
      order of the rows. */
  lemma {:induction false} PositionsBetweenIncreasing(dates: seq<Timestamp>, lo: Timestamp, hi: Timestamp)
    ensures forall a, b :: 0 <= a < b < |PositionsBetween(dates, lo, hi)| ==>
      PositionsBetween(dates, lo, hi)[a] < PositionsBetween(dates, lo, hi)[b]
  {
    if |dates| > 0 {
      var n := |dates| - 1;
      PositionsBetweenIncreasing(dates[..n], lo, hi);
      var r, prev := PositionsBetween(dates, lo, hi), PositionsBetween(dates[..n], lo, hi);
      forall a, b | 0 <= a < b < |r| ensures r[a] < r[b] {
        assert r[a] == prev[a];
        if b < |prev| { assert r[b] == prev[b]; } else { assert r[b] == n; }
      }
    }
  }

  /** `df_hours[(date >= start) & (date < end + 1 day)]`: the rows from `start`
      up to and including the whole day that starts at `end`. */
  function DataBetweenDates(f: Frame, start: Timestamp, end: Timestamp): (r: Frame)
    requires f.WellFormed()
    ensures r.WellFormed() && r.names == f.names
  {
    SelectRows(f, PositionsBetween(f.dates, start, end + HoursPerDay))
  }

  /** The rows kept are exactly those with `start <= date < end + 24h`, in
      their original order, with all their station values. */
  lemma DataBetweenDatesSelects(f: Frame, start: Timestamp, end: Timestamp)
    requires f.WellFormed()
    ensures var r, keep := DataBetweenDates(f, start, end), PositionsBetween(f.dates, start, end + 24);
      && |r.dates| == |keep|
      && (forall p: nat :: p in keep <==> p < |f.dates| && start <= f.dates[p] < end + 24)
      && (forall a, b :: 0 <= a < b < |keep| ==> keep[a] < keep[b])
      && (forall i :: 0 <= i < |keep| ==> r.dates[i] == f.dates[keep[i]] && start <= r.dates[i] < end + 24)
      && forall j, i :: 0 <= j < |f.names| && 0 <= i < |keep| ==> r.columns[j][i] == f.columns[j][keep[i]]
  {
    PositionsBetweenMembers(f.dates, start, end + 24);
    PositionsBetweenIncreasing(f.dates, start, end + 24);
    var keep := PositionsBetween(f.dates, start, end + 24);
    forall i | 0 <= i < |keep| ensures start <= f.dates[keep[i]] < end + 24 {
      assert keep[i] in keep;
    }
  }

  /** The whole end day is included and the next midnight is not. */
  lemma EndDayIsIncluded(f: Frame, start: Timestamp, end: Timestamp, p: nat)
    requires f.WellFormed() && p < |f.dates| && start <= end
    ensures end <= f.dates[p] < end + 24 ==> p in PositionsBetween(f.dates, start, end + 24)
    ensures f.dates[p] == end + 24 ==> p !in PositionsBetween(f.dates, start, end + 24)
  {
    PositionsBetweenMembers(f.dates, start, end + 24);
  }

  // ---------------------------------------------------------------------------
  // get_correlation_on_selected_stations

  /** A labelled square table: `cells[i][j]` is the entry of row label
      `rows[i]` and column label `cols[j]`. */
  datatype Table<V> = Table(rows: seq<Station>, cols: seq<Station>, cells: seq<seq<V>>)

  predicate Square<V>(m: seq<seq<V>>, n: nat) {
    |m| == n && forall i :: 0 <= i < n ==> |m[i]| == n
  }

  /** `order` lists each of `0 .. n-1` once. */
  predicate IsPermutation(order: seq<nat>, n: nat) {
    |order| == n && (forall i :: 0 <= i < n ==> order[i] < n) && Distinct(order)
  }

  /** `df.iloc[order, order]`: rows and columns permuted by the same order. */
  function Reorder<V>(t: Table<V>, order: seq<nat>): (r: Table<V>)
    requires |t.rows| == |t.cols| && Square(t.cells, |t.rows|) && IsPermutation(order, |t.rows|)
    ensures Square(r.cells, |r.rows|) && |r.rows| == |r.cols| == |t.rows|
    ensures forall i :: 0 <= i < |order| ==> r.rows[i] == t.rows[order[i]] && r.cols[i] == t.cols[order[i]]
    ensures forall i, j :: 0 <= i < |order| && 0 <= j < |order| ==> r.cells[i][j] == t.cells[order[i]][order[j]]
  {
    var n := |order|;
    Table(seq(n, i requires 0 <= i < n => t.rows[order[i]]),
          seq(n, i requires 0 <= i < n => t.cols[order[i]]),
          seq(n, i requires 0 <= i < n => seq(n, j requires 0 <= j < n => t.cells[order[i]][order[j]])))
  }

  ghost predicate Symmetric<V>(m: seq<seq<V>>, n: nat)
    requires Square(m, n)
  {
    forall i, j :: 0 <= i < n && 0 <= j < n ==> m[i][j] == m[j][i]
  }

  /** A symmetric reordering keeps a symmetric table symmetric, with matching
      row and column labels, and moves diagonal entries to the diagonal. */
  lemma ReorderKeepsSymmetry<V>(t: Table<V>, order: seq<nat>)
    requires |t.rows| == |t.cols| && Square(t.cells, |t.rows|) && IsPermutation(order, |t.rows|)
    requires Symmetric(t.cells, |t.rows|) && t.rows == t.cols
    ensures var r := Reorder(t, order);
      && Symmetric(r.cells, |r.rows|) && r.rows == r.cols
      && forall i :: 0 <= i < |order| ==> r.cells[i][i] == t.cells[order[i]][order[i]]
  {
    var r := Reorder(t, order);
    assert r.rows == r.cols;
    forall i, j | 0 <= i < |order| && 0 <= j < |order| ensures r.cells[i][j] == r.cells[j][i] {
      assert t.cells[order[i]][order[j]] == t.cells[order[j]][order[i]];
    }
  }

  /** `mask = np.zeros_like(df_corr, dtype=bool); mask[np.triu_indices_from(mask)] = True` */
  method UpperTriangleMask(n: nat) returns (mask: array2<bool>)
    ensures fresh(mask) && mask.Length0 == n && mask.Length1 == n
    ensures forall i, j :: 0 <= i < n && 0 <= j < n ==> (mask[i, j] <==> i <= j)
  {
    mask := new bool[n, n]((i, j) => false);
    var i := 0;
    while i < n
      invariant 0 <= i <= n
      invariant forall a, b :: 0 <= a < n && 0 <= b < n ==> (mask[a, b] <==> a < i && a <= b)
    {
      var j := i;
      while j < n
        invariant i <= j <= n
        invariant forall a, b :: 0 <= a < n && 0 <= b < n ==> (mask[a, b] <==> (a < i && a <= b) || (a == i && i <= b < j))
      {
        mask[i, j] := true;
        j := j + 1;
      }
      i := i + 1;
    }
  }

  /** `df.mask(mask)`: the masked cells become missing. */
  function ApplyMask<V>(t: Table<V>, mask: array2<bool>): (r: Table<Option<V>>)
    requires |t.rows| == |t.cols| && Square(t.cells, |t.rows|)
    requires mask.Length0 == |t.rows| && mask.Length1 == |t.rows|
    reads mask
    ensures r.rows == t.rows && r.cols == t.cols && Square(r.cells, |t.rows|)
    ensures forall i, j :: 0 <= i < |t.rows| && 0 <= j < |t.rows| ==>
      r.cells[i][j] == if mask[i, j] then None else Some(t.cells[i][j])
  {
    var n := |t.rows|;
    Table(t.rows, t.cols,
          seq(n, i requires 0 <= i < n reads mask =>
            seq(n, j requires 0 <= j < n reads mask => if mask[i, j] then None else Some(t.cells[i][j]))))
  }

  /** `get_correlation_on_selected_stations`: the correlation table of the
      requested columns (a missing column is a `KeyError`), optionally
      reordered by the clustering order, with the diagonal and the upper
      triangle hidden. `corr` stands for `df[columns].corr().round(3)` and
      `order` for the leaves of the average-linkage tree. */
  method CorrelationOnSelectedStations(names: seq<Station>, columns: seq<Station>, corr: seq<seq<real>>,
                                       ordered: bool, order: seq<nat>)
    returns (r: Result<Table<Option<real>>>)
    requires Square(corr, |columns|)
    requires ordered ==> IsPermutation(order, |columns|)
    ensures r.Err? <==> exists c :: c in columns && c !in names
    ensures r.Err? ==> r.error == MissingKey
    ensures r.Ok? ==> var n, t := |columns|, r.value;
      && |t.rows| == |t.cols| == n && t.rows == t.cols && Square(t.cells, n)
      && (forall i :: 0 <= i < n ==> t.rows[i] == if ordered then columns[order[i]] else columns[i])
      && forall i, j :: 0 <= i < n && 0 <= j < n ==>
        t.cells[i][j] == if i <= j then None else Some(if ordered then corr[order[i]][order[j]] else corr[i][j])
  {
    if exists c :: c in columns && c !in names {
      return Err(MissingKey);
    }
    var t := Table(columns, columns, corr);
    if ordered {
      t := Reorder(t, order);
    }
    var mask := UpperTriangleMask(|columns|);
    r := Ok(ApplyMask(t, mask));
  }
}
