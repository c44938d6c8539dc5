/**
 * `format_shap_values` of utils.py: turns one explainer output and the list of
 * feature names into the top-15 table drawn as a diverging bar chart, plus the
 * kept feature names in reverse rank order.
 */
module Formatter {
  import opened Wrappers
  import opened Frame

  /** Bar colour of a feature that raises the predicted default risk. */
  const IncreasesRisk: string := "#D73027"
  /** Bar colour of every other feature, zero included. */
  const DecreasesRisk: string := "#1A9851"
  /** `head(15)`. */
  const TopK: nat := 15

  /** The explainer output: one contribution per feature, or one row of them per sample. */
  datatype Contributions = Vector(values: seq<real>) | Matrix(samples: seq<seq<real>>)

  /** A numpy array is rectangular; a 2-D one is averaged over at least one sample. */
  predicate ValidShape(c: Contributions)
  {
    c.Matrix? ==> |c.samples| > 0 && forall k :: 0 <= k < |c.samples| ==> |c.samples[k]| == |c.samples[0]|
  }

  /** Number of features, the length the DataFrame columns must share. */
  function Width(c: Contributions): nat
    requires ValidShape(c)
  {
    match c
    case Vector(v) => |v|
    case Matrix(m) => |m[0]|
  }

  datatype FormatError = ShapeMismatch(names: nat, values: nat)

  /** One row of the returned table: the sort columns plus left, right and color. */
  datatype ExplainedRow = ExplainedRow(
    feature: string, shapValue: real, absoluteValue: real, left: real, right: real, color: string)

  datatype Explanation = Explanation(table: seq<ExplainedRow>, mostImportant: seq<string>)

  /** Sum over the samples of feature j, of the value itself or of its absolute value. */
  function ColumnSum(samples: seq<seq<real>>, j: nat, absolute: bool): real
    requires forall k :: 0 <= k < |samples| ==> j < |samples[k]|
  {
    if samples == [] then 0.0
    else ColumnSum(samples[..|samples| - 1], j, absolute)
         + (var v := samples[|samples| - 1][j]; if absolute then Abs(v) else v)
  }

  /** `mean(axis=0)` of the signed values. */
  function SignedMean(samples: seq<seq<real>>, j: nat): real
    requires |samples| > 0 && forall k :: 0 <= k < |samples| ==> j < |samples[k]|
  {
    ColumnSum(samples, j, false) / (|samples| as real)
  }

  /** `np.abs(...).mean(axis=0)`: the ranking magnitude of feature j. */
  function AbsMean(samples: seq<seq<real>>, j: nat): real
    requires |samples| > 0 && forall k :: 0 <= k < |samples| ==> j < |samples[k]|
  {
    ColumnSum(samples, j, true) / (|samples| as real)
  }

  /** The DataFrame built from names, displayed values and ranking magnitudes, in input order. */
  function InputRows(c: Contributions, names: seq<string>): (rows: seq<Row>)
    requires ValidShape(c) && |names| == Width(c)
    ensures |rows| == |names|
    ensures forall i :: 0 <= i < |rows| ==> rows[i].feature == names[i]
    ensures c.Vector? ==> forall i :: 0 <= i < |rows| ==> rows[i].value == c.values[i] && rows[i].magnitude == Abs(c.values[i])
    ensures c.Matrix? ==> forall i :: 0 <= i < |rows| ==>
              rows[i].value == SignedMean(c.samples, i) && rows[i].magnitude == AbsMean(c.samples, i)
  {
    match c
    case Vector(v) => seq(|names|, i requires 0 <= i < |names| => Row(names[i], v[i], Abs(v[i])))
    case Matrix(m) =>
      seq(|names|, i requires 0 <= i < |names| => Row(names[i], SignedMean(m, i), AbsMean(m, i)))
  }

  /** The `left`, `right` and `color` columns of one row. */
  function Decorate(r: Row): ExplainedRow
  {
    var v := r.value;
    ExplainedRow(r.feature, v, r.magnitude,
                 if v < 0.0 then v else 0.0,
                 if v > 0.0 then v else 0.0,
                 if v > 0.0 then IncreasesRisk else DecreasesRisk)
  }

  function Undecorate(e: ExplainedRow): Row
  {
    Row(e.feature, e.shapValue, e.absoluteValue)
  }

  function Features(t: seq<ExplainedRow>): (r: seq<string>)
    ensures |r| == |t| && forall i :: 0 <= i < |t| ==> r[i] == t[i].feature
  {
    seq(|t|, i requires 0 <= i < |t| => t[i].feature)
  }

  /** What the function returns once the table is sorted: colour every row, keep the head, reverse the names. */
  function Explain(ranked: seq<Row>): Explanation
  {
    var decorated := seq(|ranked|, i requires 0 <= i < |ranked| => Decorate(ranked[i]));
    var table := Head(decorated, TopK);
    Explanation(table, Reverse(Features(table)))
  }

  /** The sort columns of the returned table, as rows of the input. */
  function Kept(t: seq<ExplainedRow>): (r: seq<Row>)
    ensures |r| == |t| && forall i :: 0 <= i < |t| ==> r[i] == Undecorate(t[i])
  {
    seq(|t|, i requires 0 <= i < |t| => Undecorate(t[i]))
  }

  /** Every property the returned table and name list have with respect to the input rows. */
  predicate Describes(e: Explanation, input: seq<Row>)
  {
    && |e.table| == Min(TopK, |input|)
    && (forall i, j :: 0 <= i < j < |e.table| ==> e.table[i].absoluteValue >= e.table[j].absoluteValue)
    && IsTopOf(Kept(e.table), input)
    && (forall i :: 0 <= i < |e.table| ==> SignSplit(e.table[i]))
    && e.mostImportant == Reverse(Features(e.table))
  }

  /** left = min(v, 0), right = max(v, 0), so left + right = v; red exactly when v > 0. */
  predicate SplitsValue(v: real, left: real, right: real, color: string)
  {
    && left == (if v < 0.0 then v else 0.0) && left <= 0.0
    && right == (if v > 0.0 then v else 0.0) && right >= 0.0
    && left + right == v
    && (color == IncreasesRisk <==> v > 0.0)
    && (color == DecreasesRisk <==> v <= 0.0)
  }

  predicate SignSplit(e: ExplainedRow)
  {
    SplitsValue(e.shapValue, e.left, e.right, e.color)
  }

  lemma DecorateSplits(r: Row)
    ensures SignSplit(Decorate(r)) && Undecorate(Decorate(r)) == r
  {
    assert IncreasesRisk != DecreasesRisk;
  }

  /**
   * Any ranking of the input gives a table that is the top min(15, n) rows,
   * in non-increasing magnitude, each an input row, with the sign split and
   * the reversed name list.
   */
  lemma ExplainDescribes(ranked: seq<Row>, input: seq<Row>)
    requires IsRanking(ranked, input)
    ensures Describes(Explain(ranked), input)
  {
    var e := Explain(ranked);
    var kept := Head(ranked, TopK);
    assert |ranked| == |input| by { assert |multiset(ranked)| == |multiset(input)|; }
    forall i | 0 <= i < |e.table| ensures SignSplit(e.table[i]) && Undecorate(e.table[i]) == ranked[i] {
      DecorateSplits(ranked[i]);
    }
    assert Kept(e.table) == kept;
    HeadIsTopK(ranked, input, TopK);
  }

  method FormatShapValues(shapValues: Contributions, featureNames: seq<string>)
    returns (r: Result<Explanation, FormatError>)
    requires ValidShape(shapValues)
    ensures r.Failure? <==> |featureNames| != Width(shapValues)
    ensures r.Failure? ==> r.error == ShapeMismatch(|featureNames|, Width(shapValues))
    ensures r.Success? ==> exists ranked :: IsRanking(ranked, InputRows(shapValues, featureNames))
                                          && r.value == Explain(ranked)
    ensures r.Success? ==> Describes(r.value, InputRows(shapValues, featureNames))
  {
    if |featureNames| != Width(shapValues) {
      return Failure(ShapeMismatch(|featureNames|, Width(shapValues)));
    }
    var rows := InputRows(shapValues, featureNames);
    var df := new Row[|rows|](i requires 0 <= i < |rows| => rows[i]);
    assert df[..] == rows;
    SortByMagnitude(df);
    var ranked := df[..];
    ExplainDescribes(ranked, rows);
    r := Success(Explain(ranked));
  }

  /** For a single sample the 2-D reduction gives back the 1-D rows. */
  lemma SingleSampleIsVector(v: seq<real>, names: seq<string>)
    requires |names| == |v|
    ensures InputRows(Matrix([v]), names) == InputRows(Vector(v), names)
  {
    forall i | 0 <= i < |v|
      ensures InputRows(Matrix([v]), names)[i] == InputRows(Vector(v), names)[i]
    {
      assert [v][..0] == [];
      assert ColumnSum([v], i, false) == v[i];
      assert ColumnSum([v], i, true) == Abs(v[i]);
    }
  }

  /** |sum of v| <= sum of |v|, column by column. */
  lemma {:induction false} ColumnSumBound(samples: seq<seq<real>>, j: nat)
    requires forall k :: 0 <= k < |samples| ==> j < |samples[k]|
    ensures Abs(ColumnSum(samples, j, false)) <= ColumnSum(samples, j, true)
  {
    if samples != [] {
      ColumnSumBound(samples[..|samples| - 1], j);
    }
  }

  /**
   * For 2-D input the displayed mean never exceeds the ranking magnitude in
   * size, so the bar a row draws is no longer than the magnitude it is ranked by.
   */
  lemma MeanBelowMagnitude(c: Contributions, names: seq<string>, i: nat)
    requires ValidShape(c) && |names| == Width(c) && i < |names|
    ensures Abs(InputRows(c, names)[i].value) <= InputRows(c, names)[i].magnitude
  {
    if c.Matrix? {
      var m := c.samples;
      ColumnSumBound(m, i);
      var n := |m| as real;
      var s, a := ColumnSum(m, i, false), ColumnSum(m, i, true);
      assert Abs(s / n) == Abs(s) / n;
      DivideBound(Abs(s), a, n);
    }
  }

  lemma DivideBound(x: real, y: real, n: real)
    requires x <= y && n > 0.0
    ensures x / n <= y / n
  {
  }

  /** When every contribution is positive, every bar is red and starts at zero. */
  lemma AllPositiveAllRed(ranked: seq<Row>, input: seq<Row>)
    requires IsRanking(ranked, input)
    requires forall k :: 0 <= k < |input| ==> input[k].value > 0.0
    ensures forall i :: 0 <= i < |Explain(ranked).table| ==>
              Explain(ranked).table[i].color == IncreasesRisk && Explain(ranked).table[i].left == 0.0
  {
    forall i | 0 <= i < |Explain(ranked).table|
      ensures ranked[i].value > 0.0
    {
      assert ranked[i] in multiset(input);
    }
  }
}
