/**
 * Feature extraction of the market model (`prepare_features`): trailing 5- and
 * 10-point simple moving averages of the close price, their difference, the
 * removal of the warm-up rows, and the 0/1 label "the next row's difference is
 * strictly positive".
 *
 * The frame is modelled the way pandas computes it: the rolling columns are
 * first written for every row with NaN (`None`) where the window is not full,
 * `dropna` then filters the rows, and `shift(-1)` brings the next row's
 * difference up, with NaN in the last row.  The lemmas below state what this
 * pipeline amounts to in terms of the close prices alone.
 */
module Features {
  import opened Wrappers
  import opened Stats

  /** Window of the short moving average (`rolling(5)`). */
  const ShortWindow: nat := 5
  /** Window of the long moving average (`rolling(10)`). */
  const LongWindow: nat := 10

  /** One row of the feature matrix `X`: the columns MA_5, MA_10 and diff, in this order. */
  datatype FeatureRow = FeatureRow(ma5: real, ma10: real, diff: real)

  /** The pair `(X, y)` returned by `prepare_features`. */
  datatype Features = Features(x: seq<FeatureRow>, y: seq<int>)

  /** A row of the price frame once the three indicator columns are written; `None` is NaN. */
  datatype FrameRow = FrameRow(close: real, ma5: Option<real>, ma10: Option<real>, diff: Option<real>)

  /** `Series.rolling(w).mean()`: NaN until `w` values are available, then the mean of the `w` values ending at the row. */
  function RollingMean(closes: seq<real>, w: nat): seq<Option<real>>
    requires w > 0
  {
    seq(|closes|, i requires 0 <= i < |closes| =>
      if i + 1 < w then None else Some(Mean(closes[i + 1 - w .. i + 1])))
  }

  /** Column subtraction: NaN on either side gives NaN. */
  function Minus(a: Option<real>, b: Option<real>): Option<real>
  {
    if a.Some? && b.Some? then Some(a.value - b.value) else None
  }

  /** The frame after the columns MA_5, MA_10 and diff have been written. */
  function WithIndicators(closes: seq<real>): (rows: seq<FrameRow>)
    ensures |rows| == |closes|
  {
    var ma5 := RollingMean(closes, ShortWindow);
    var ma10 := RollingMean(closes, LongWindow);
    seq(|closes|, i requires 0 <= i < |closes| =>
      FrameRow(closes[i], ma5[i], ma10[i], Minus(ma5[i], ma10[i])))
  }

  /** A row without NaN; the close price itself is never NaN in this model. */
  predicate Complete(r: FrameRow)
  {
    r.ma5.Some? && r.ma10.Some? && r.diff.Some?
  }

  /** `DataFrame.dropna()`: the rows without NaN, in their original order. */
  function DropNa(rows: seq<FrameRow>): (kept: seq<FrameRow>)
    ensures |kept| <= |rows|
    ensures forall k :: 0 <= k < |kept| ==> Complete(kept[k])
  {
    if rows == [] then []
    else (if Complete(rows[0]) then [rows[0]] else []) + DropNa(rows[1..])
  }

  /** `df[['MA_5', 'MA_10', 'diff']].values` on rows without NaN. */
  function Matrix(kept: seq<FrameRow>): (x: seq<FeatureRow>)
    requires forall k :: 0 <= k < |kept| ==> Complete(kept[k])
    ensures |x| == |kept|
  {
    seq(|kept|, k requires 0 <= k < |kept| && Complete(kept[k]) =>
      FeatureRow(kept[k].ma5.value, kept[k].ma10.value, kept[k].diff.value))
  }

  /** `Series.shift(-1)`: every row takes the next row's value, and the last row becomes NaN. */
  function ShiftNext(col: seq<real>): (shifted: seq<Option<real>>)
    ensures |shifted| == |col|
  {
    seq(|col|, k requires 0 <= k < |col| => if k + 1 < |col| then Some(col[k + 1]) else None)
  }

  /** `np.where(col > 0, 1, 0)`, where a comparison with NaN is false. */
  function PositiveIndicator(col: seq<Option<real>>): (y: seq<int>)
    ensures |y| == |col|
  {
    seq(|col|, k requires 0 <= k < |col| => if col[k].Some? && col[k].value > 0.0 then 1 else 0)
  }

  /** `prepare_features(df)` on the close prices of the frame, in the order the frame holds them. */
  function PrepareFeatures(closes: seq<real>): (f: Features)
    ensures |f.y| == |f.x|
  {
    var x := Matrix(DropNa(WithIndicators(closes)));
    var diffs := seq(|x|, k requires 0 <= k < |x| => x[k].diff);
    Features(x, PositiveIndicator(ShiftNext(diffs)))
  }

  /** The first `LongWindow - 1` rows are the warm-up rows: exactly they hold a NaN. */
  lemma WarmUpRows(closes: seq<real>, i: nat)
    requires i < |closes|
    ensures Complete(WithIndicators(closes)[i]) <==> i >= LongWindow - 1
  {
  }

  /** `dropna` keeps exactly the rows of its input that have no NaN. */
  lemma {:induction false} DropNaMembers(rows: seq<FrameRow>)
    ensures forall r :: r in DropNa(rows) <==> r in rows && Complete(r)
    decreases |rows|
  {
    if rows != [] {
      DropNaMembers(rows[1..]);
      assert rows == [rows[0]] + rows[1..];
    }
  }

  /**
   * `dropna` keeps the order of the rows: filtering two blocks one after the
   * other is filtering their concatenation.
   */
  lemma {:induction false} DropNaKeepsOrder(a: seq<FrameRow>, b: seq<FrameRow>)
    ensures DropNa(a + b) == DropNa(a) + DropNa(b)
    decreases |a|
  {
    if a == [] {
      assert a + b == b;
    } else {
      assert (a + b)[1..] == a[1..] + b;
      DropNaKeepsOrder(a[1..], b);
    }
  }

  /** A single row is kept exactly when it has no NaN. */
  lemma DropNaSingle(r: FrameRow)
    ensures DropNa([r]) == if Complete(r) then [r] else []
  {
    assert [r][1..] == [];
  }

  /** `dropna` on rows whose NaN rows form a prefix of length `j` keeps exactly the suffix after it. */
  lemma {:induction false} DropNaDropsPrefix(rows: seq<FrameRow>, j: nat)
    requires j <= |rows|
    requires forall i :: 0 <= i < j ==> !Complete(rows[i])
    requires forall i :: j <= i < |rows| ==> Complete(rows[i])
    ensures DropNa(rows) == rows[j..]
    decreases |rows|
  {
    if rows != [] {
      if j == 0 {
        DropNaDropsPrefix(rows[1..], 0);
      } else {
        DropNaDropsPrefix(rows[1..], j - 1);
        assert rows[1..][j - 1..] == rows[j..];
      }
    }
  }

  /** The rows `dropna` keeps are those from index `LongWindow - 1` on. */
  lemma KeptRows(closes: seq<real>)
    ensures DropNa(WithIndicators(closes)) ==
            if |closes| < LongWindow then [] else WithIndicators(closes)[LongWindow - 1..]
  {
    var rows := WithIndicators(closes);
    var j := if |closes| < LongWindow then |closes| else LongWindow - 1;
    forall i | 0 <= i < |rows|
      ensures Complete(rows[i]) <==> i >= LongWindow - 1
    {
      WarmUpRows(closes, i);
    }
    DropNaDropsPrefix(rows, j);
  }

  /**
   * A series of n closes yields max(0, n - 9) feature rows, and row k holds the
   * mean of the 5 closes and of the 10 closes ending at close k + 9, and their
   * difference.
   */
  lemma FeatureRows(closes: seq<real>)
    ensures |PrepareFeatures(closes).x| == if |closes| < LongWindow then 0 else |closes| - (LongWindow - 1)
    ensures forall k :: 0 <= k < |PrepareFeatures(closes).x| ==>
      var end := k + LongWindow;
      PrepareFeatures(closes).x[k] ==
        FeatureRow(Mean(closes[end - ShortWindow .. end]), Mean(closes[k .. end]),
                   Mean(closes[end - ShortWindow .. end]) - Mean(closes[k .. end]))
  {
    KeptRows(closes);
  }

  /**
   * Label k is 1 exactly when the next feature row's difference is strictly
   * positive, and 0 otherwise; so the last label is always 0.
   */
  lemma LabelRule(closes: seq<real>)
    ensures var f := PrepareFeatures(closes);
      forall k :: 0 <= k < |f.y| ==>
        (f.y[k] == 1 <==> k + 1 < |f.x| && f.x[k + 1].diff > 0.0) &&
        (f.y[k] == 0 <==> !(k + 1 < |f.x| && f.x[k + 1].diff > 0.0))
    ensures var f := PrepareFeatures(closes);
      |f.y| > 0 ==> f.y[|f.y| - 1] == 0
  {
  }

  /** Strictly rising prices: `closes[i] < closes[j]` whenever `i < j`. */
  predicate StrictlyRising(closes: seq<real>)
  {
    forall i, j :: 0 <= i < j < |closes| ==> closes[i] < closes[j]
  }

  /**
   * On a strictly rising series the 5-point average is above the 10-point
   * average in every feature row, so every label but the last is 1.
   */
  lemma RisingSeriesLabels(closes: seq<real>)
    requires StrictlyRising(closes)
    ensures var f := PrepareFeatures(closes);
      (forall k :: 0 <= k < |f.x| ==> f.x[k].diff > 0.0) &&
      (forall k :: 0 <= k < |f.y| - 1 ==> f.y[k] == 1)
  {
    FeatureRows(closes);
    var f := PrepareFeatures(closes);
    forall k | 0 <= k < |f.x|
      ensures f.x[k].diff > 0.0
    {
      RisingWindow(closes, k);
    }
    LabelRule(closes);
  }

  /** In a rising window of ten closes, the mean of the last five exceeds the mean of all ten. */
  lemma RisingWindow(closes: seq<real>, k: nat)
    requires StrictlyRising(closes)
    requires k + LongWindow <= |closes|
    ensures Mean(closes[k + 5 .. k + 10]) > Mean(closes[k .. k + 10])
  {
    var early, late := closes[k .. k + 5], closes[k + 5 .. k + 10];
    assert closes[k .. k + 10] == early + late;
    SumAppend(early, late);
    SumStrictlyBelow(early, late);
  }
}
