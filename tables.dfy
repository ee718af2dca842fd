/** The feature tables handed to the estimators: named real columns of one
    height, column assignment, and pandas' one-hot (`get_dummies`) encoding. */
module Tables {
  import opened Wrappers
  import opened Calendar
  import opened Sequences

  datatype Table = Table(height: nat, names: seq<string>, columns: seq<seq<real>>) {

    predicate WellFormed() {
      && |columns| == |names|
      && forall c :: 0 <= c < |columns| ==> |columns[c]| == height
    }

    /** `X.values`: one row per position, the columns in order. */
    function Rows(): (r: seq<seq<real>>)
      requires WellFormed()
      ensures |r| == height
      ensures forall i :: 0 <= i < height ==> |r[i]| == |columns|
      ensures forall i, c :: 0 <= i < height && 0 <= c < |columns| ==> r[i][c] == columns[c][i]
    {
      seq(height, i requires 0 <= i < height => seq(|columns|, c requires 0 <= c < |columns| => columns[c][i]))
    }
  }

  function Zeros(n: nat): (z: seq<real>)
    ensures |z| == n && forall i :: 0 <= i < n ==> z[i] == 0.0
  {
    seq(n, i => 0.0)
  }

  /** `df[name]`, if there is such a column. */
  function ColumnOf(t: Table, name: string): (r: Option<seq<real>>)
    requires t.WellFormed()
    ensures r.Some? <==> name in t.names
    ensures r.Some? ==> |r.value| == t.height
  {
    match IndexOf(t.names, name)
    case Some(c) => Some(t.columns[c])
    case None => None
  }

  /** `df[name] = col`: replaces the column of that name, or appends a new one. */
  function Assign(t: Table, name: string, col: seq<real>): (r: Table)
    requires t.WellFormed() && |col| == t.height
    ensures r.WellFormed() && r.height == t.height
    ensures ColumnOf(r, name) == Some(col)
    ensures name !in t.names ==> r.names == t.names + [name] && r.columns == t.columns + [col]
    ensures name in t.names ==> r.names == t.names && |r.columns| == |t.columns|
    ensures name in t.names ==> forall c :: 0 <= c < |t.columns| && t.names[c] != name ==> r.columns[c] == t.columns[c]
  {
    match IndexOf(t.names, name)
    case Some(c) =>
      var r := Table(t.height, t.names, t.columns[c := col]);
      assert IndexOf(r.names, name) == Some(c);
      r
    case None =>
      var r := Table(t.height, t.names + [name], t.columns + [col]);
      assert r.names[|t.names|] == name;
      assert IndexOf(r.names, name) == Some(|t.names|);
      r
  }

  /** `lo, lo + 1, ..., hi - 1` */
  function Range(lo: int, hi: int): (r: seq<int>)
    ensures |r| == Max(hi - lo, 0) && forall i :: 0 <= i < |r| ==> r[i] == lo + i
  {
    seq(Max(hi - lo, 0), i => lo + i)
  }

  /** The categories of a column of codes in [lo, hi) that actually occur, in
      increasing order: the categories `get_dummies` infers from the data. */
  function Categories(codes: seq<int>, lo: int, hi: int): seq<int>
    decreases hi - lo
  {
    if lo >= hi then []
    else (if lo in codes then [lo] else []) + Categories(codes, lo + 1, hi)
  }

  /** A category is listed exactly when it lies in [lo, hi) and occurs. */
  lemma {:induction false} CategoriesMembers(codes: seq<int>, lo: int, hi: int)
    ensures forall c :: c in Categories(codes, lo, hi) <==> lo <= c < hi && c in codes
    decreases hi - lo
  {
    if lo < hi {
      CategoriesMembers(codes, lo + 1, hi);
    }
  }

  /** The categories are listed in increasing order, none below `lo`. */
  lemma {:induction false} CategoriesIncreasing(codes: seq<int>, lo: int, hi: int)
    ensures forall i :: 0 <= i < |Categories(codes, lo, hi)| ==> lo <= Categories(codes, lo, hi)[i]
    ensures forall a, b :: 0 <= a < b < |Categories(codes, lo, hi)| ==>
      Categories(codes, lo, hi)[a] < Categories(codes, lo, hi)[b]
    decreases hi - lo
  {
    if lo < hi {
      var head: seq<int> := if lo in codes then [lo] else [];
      var rest := Categories(codes, lo + 1, hi);
      CategoriesIncreasing(codes, lo + 1, hi);
      var r := head + rest;
      assert r == Categories(codes, lo, hi);
      forall i | 0 <= i < |r| ensures lo <= r[i] {
        if i < |head| { assert r[i] == head[i] == lo; } else { assert r[i] == rest[i - |head|]; }
      }
      forall a, b | 0 <= a < b < |r| ensures r[a] < r[b] {
        assert r[b] == rest[b - |head|] >= lo + 1;
        if a < |head| { assert r[a] == head[a] == lo; } else { assert r[a] == rest[a - |head|]; }
      }
    }
  }

  /** A column in which every category occurs has all of them as categories. */
  lemma {:induction false} CategoriesOfFullColumn(codes: seq<int>, lo: int, hi: int)
    requires forall c :: lo <= c < hi ==> c in codes
    ensures Categories(codes, lo, hi) == Range(lo, hi)
    decreases hi - lo
  {
    if lo < hi {
      CategoriesOfFullColumn(codes, lo + 1, hi);
      assert lo in codes;
      var r := Range(lo, hi);
      assert r == [lo] + Range(lo + 1, hi) by {
        forall i | 0 <= i < |r| ensures r[i] == ([lo] + Range(lo + 1, hi))[i] {
          if i > 0 { assert ([lo] + Range(lo + 1, hi))[i] == Range(lo + 1, hi)[i - 1]; }
        }
      }
    }
  }

  /** Codes none of which lies in [lo, hi) have no categories there. */
  lemma {:induction false} CategoriesOfAbsentCodes(codes: seq<int>, lo: int, hi: int)
    requires forall i :: 0 <= i < |codes| ==> !(lo <= codes[i] < hi)
    ensures Categories(codes, lo, hi) == []
    decreases hi - lo
  {
    if lo < hi {
      assert lo !in codes;
      CategoriesOfAbsentCodes(codes, lo + 1, hi);
    }
  }

  /** A column holding a single code has that code as its only category. */
  lemma {:induction false} CategoriesOfConstantColumn(codes: seq<int>, lo: int, hi: int, v: int)
    requires |codes| > 0 && forall i :: 0 <= i < |codes| ==> codes[i] == v
    requires lo <= v < hi
    ensures Categories(codes, lo, hi) == [v]
    decreases hi - lo
  {
    assert codes[0] == v;
    if lo < v {
      assert lo !in codes;
      CategoriesOfConstantColumn(codes, lo + 1, hi, v);
    } else {
      CategoriesOfAbsentCodes(codes, lo + 1, hi);
    }
  }

  /** `drop_first=True` */
  function DropFirst(cats: seq<int>): (r: seq<int>)
    ensures |cats| > 0 ==> r == cats[1..]
    ensures |cats| == 0 ==> r == []
  {
    if |cats| == 0 then [] else cats[1..]
  }

  /** The name `get_dummies` gives the column of a category: the prefix, `_`, the category's tag. */
  function DummyName(prefix: string, tag: string): string {
    prefix + "_" + tag
  }

  /** `str(c)` of an integer category; `str(c == 1)` of a boolean one. */
  function IntLabel(c: int): string {
    if c >= 0 then NatToString(c) else "-" + NatToString(-c)
  }

  function BoolLabel(c: int): string {
    if c == 1 then "True" else "False"
  }

  /** The indicator column of category `c` of a column of codes. */
  function Indicators(codes: seq<int>, c: int): (col: seq<real>)
    ensures |col| == |codes|
    ensures forall i :: 0 <= i < |codes| ==> col[i] == (if codes[i] == c then 1.0 else 0.0)
  {
    seq(|codes|, i requires 0 <= i < |codes| => Indicator(codes[i] == c))
  }

  /** The names `get_dummies` gives the indicator columns of `cats`. */
  function DummyNamesOf(prefix: string, cats: seq<int>, tagOf: int -> string): (r: seq<string>)
    ensures |r| == |cats| && forall k :: 0 <= k < |cats| ==> r[k] == DummyName(prefix, tagOf(cats[k]))
  {
    seq(|cats|, k requires 0 <= k < |cats| => DummyName(prefix, tagOf(cats[k])))
  }

  /** One indicator column per category of `cats`. */
  function IndicatorColumns(codes: seq<int>, cats: seq<int>): (r: seq<seq<real>>)
    ensures |r| == |cats| && forall k :: 0 <= k < |cats| ==> r[k] == Indicators(codes, cats[k])
  {
    seq(|cats|, k requires 0 <= k < |cats| => Indicators(codes, cats[k]))
  }

  /** `get_dummies` of one encoded column: the indicator columns of the listed
      categories, appended after the table's other columns. */
  function AppendDummies(t: Table, prefix: string, codes: seq<int>, cats: seq<int>, tagOf: int -> string): (r: Table)
    requires t.WellFormed() && |codes| == t.height
    ensures r.WellFormed() && r.height == t.height
    ensures r.names == t.names + DummyNamesOf(prefix, cats, tagOf)
    ensures r.columns == t.columns + IndicatorColumns(codes, cats)
  {
    Table(t.height, t.names + DummyNamesOf(prefix, cats, tagOf), t.columns + IndicatorColumns(codes, cats))
  }

  /** A column `get_dummies` encodes: its prefix, its codes, the range [lo, hi)
      its codes are declared in, and how a category is written in a name. */
  datatype Encoded = Encoded(prefix: string, codes: seq<int>, lo: int, hi: int, tagOf: int -> string)

  /** The categories that get a column, the first one dropped (`drop_first=True`):
      those found in the codes, or, for a column of declared categories
      (a pandas `Categorical`), all of [lo, hi). */
  function EncodedCategories(e: Encoded, declared: bool): (r: seq<int>)
    ensures declared ==> r == DropFirst(Range(e.lo, e.hi))
    ensures !declared ==> r == DropFirst(Categories(e.codes, e.lo, e.hi))
  {
    DropFirst(if declared then Range(e.lo, e.hi) else Categories(e.codes, e.lo, e.hi))
  }

  /** `pd.get_dummies(df, columns=[...], drop_first=True)`: the columns are
      encoded in order, each one's indicators appended after what came before. */
  function GetDummies(t: Table, cols: seq<Encoded>, declared: bool): (r: Table)
    requires t.WellFormed() && forall k :: 0 <= k < |cols| ==> |cols[k].codes| == t.height
    ensures r.WellFormed() && r.height == t.height
    decreases |cols|
  {
    if |cols| == 0 then t
    else
      var e := cols[0];
      GetDummies(AppendDummies(t, e.prefix, e.codes, EncodedCategories(e, declared), e.tagOf), cols[1..], declared)
  }

  /** Encoding `[a, b, c]` is encoding `a`, then `b`, then `c`. */
  lemma GetDummiesOfThree(t: Table, cols: seq<Encoded>, declared: bool)
    requires t.WellFormed() && |cols| == 3 && forall k :: 0 <= k < 3 ==> |cols[k].codes| == t.height
    ensures GetDummies(t, cols, declared) ==
      var t1 := AppendDummies(t, cols[0].prefix, cols[0].codes, EncodedCategories(cols[0], declared), cols[0].tagOf);
      var t2 := AppendDummies(t1, cols[1].prefix, cols[1].codes, EncodedCategories(cols[1], declared), cols[1].tagOf);
      AppendDummies(t2, cols[2].prefix, cols[2].codes, EncodedCategories(cols[2], declared), cols[2].tagOf)
  {
    var t1 := AppendDummies(t, cols[0].prefix, cols[0].codes, EncodedCategories(cols[0], declared), cols[0].tagOf);
    var t2 := AppendDummies(t1, cols[1].prefix, cols[1].codes, EncodedCategories(cols[1], declared), cols[1].tagOf);
    var t3 := AppendDummies(t2, cols[2].prefix, cols[2].codes, EncodedCategories(cols[2], declared), cols[2].tagOf);
    assert cols[1..][0] == cols[1] && cols[1..][1..][0] == cols[2] && |cols[1..][1..][1..]| == 0;
    assert GetDummies(t2, cols[1..][1..], declared) == GetDummies(t3, [], declared);
  }

  /** Where every column's codes take all their declared values, the observed
      and the declared encodings coincide. */
  lemma {:induction false} GetDummiesOfFullColumns(t: Table, cols: seq<Encoded>)
    requires t.WellFormed() && forall k :: 0 <= k < |cols| ==> |cols[k].codes| == t.height
    requires forall k :: 0 <= k < |cols| ==> Categories(cols[k].codes, cols[k].lo, cols[k].hi) == Range(cols[k].lo, cols[k].hi)
    ensures GetDummies(t, cols, false) == GetDummies(t, cols, true)
    decreases |cols|
  {
    if |cols| > 0 {
      var e := cols[0];
      assert EncodedCategories(e, false) == EncodedCategories(e, true);
      var t1 := AppendDummies(t, e.prefix, e.codes, EncodedCategories(e, true), e.tagOf);
      GetDummiesOfFullColumns(t1, cols[1..]);
    }
  }

  /** Encoding over no category adds nothing. */
  lemma AppendNoDummies(t: Table, prefix: string, codes: seq<int>, tagOf: int -> string)
    requires t.WellFormed() && |codes| == t.height
    ensures AppendDummies(t, prefix, codes, [], tagOf) == t
  {
    assert t.names + [] == t.names && t.columns + [] == t.columns;
  }

  /** `for col in names: if col not in df.columns: df[col] = 0`, from the
      `i`-th name on. */
  function FillFrom(t: Table, names: seq<string>, i: nat): (r: Table)
    requires t.WellFormed() && i <= |names|
    decreases |names| - i
    ensures r.WellFormed() && r.height == t.height
  {
    if i == |names| then t
    else FillFrom(if names[i] in t.names then t else Assign(t, names[i], Zeros(t.height)), names, i + 1)
  }

  /** Filling keeps every existing column as it was, appends zero columns only,
      each for a name that was missing, and leaves no listed name missing. */
  lemma {:induction false} FillFromProperties(t: Table, names: seq<string>, i: nat)
    requires t.WellFormed() && i <= |names|
    decreases |names| - i
    ensures var r := FillFrom(t, names, i);
      && |r.names| >= |t.names|
      && r.names[..|t.names|] == t.names && r.columns[..|t.names|] == t.columns
      && (forall c :: |t.names| <= c < |r.names| ==>
            r.columns[c] == Zeros(t.height) && r.names[c] !in t.names && r.names[c] in names[i..])
      && (forall k :: i <= k < |names| ==> names[k] in r.names)
  {
    if i < |names| {
      var next := if names[i] in t.names then t else Assign(t, names[i], Zeros(t.height));
      FillFromProperties(next, names, i + 1);
      var r := FillFrom(t, names, i);
      assert r == FillFrom(next, names, i + 1);
      assert next.names[..|t.names|] == t.names && next.columns[..|t.names|] == t.columns;
      assert r.names[..|t.names|] == r.names[..|next.names|][..|t.names|];
      assert r.columns[..|t.names|] == r.columns[..|next.names|][..|t.names|];
      forall c | |t.names| <= c < |r.names|
        ensures r.columns[c] == Zeros(t.height) && r.names[c] !in t.names && r.names[c] in names[i..]
      {
        if c < |next.names| {
          assert names[i] !in t.names && c == |t.names|;
          assert r.names[c] == r.names[..|next.names|][c] == next.names[c] == names[i];
          assert r.columns[c] == r.columns[..|next.names|][c] == next.columns[c];
          assert names[i] == names[i..][0];
        } else {
          assert r.names[c] in names[i + 1..];
          assert r.names[c] !in next.names;
          assert names[i + 1..] == names[i..][1..];
        }
      }
      assert names[i] in next.names;
      assert names[i] in r.names by {
        var c :| 0 <= c < |next.names| && next.names[c] == names[i];
        assert r.names[..|next.names|][c] == names[i];
      }
    }
  }
}
