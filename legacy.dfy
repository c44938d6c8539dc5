/**
 * The older `format_shap_values` of dashboard_functions.py, written for a Bokeh
 * chart: the same ranking as utils.py, but selected with the label-based
 * `loc[0:14]`, renumbered with a fresh `index` column, and without the
 * `absolute_values` column in its output.
 */
module LegacyFormatter {
  import opened Wrappers
  import opened Frame
  import Formatter

  /** The last label `loc[0:14]` keeps; unlike a slice, `loc` includes it. */
  const LastLabel: nat := 14

  datatype FormatError = LengthMismatch(values: nat, index: nat)

  /** One row of the returned table: index, features, shap_values, left, right, color. */
  datatype LegacyRow = LegacyRow(index: nat, feature: string, shapValue: real, left: real, right: real, color: string)

  datatype LegacyExplanation = LegacyExplanation(table: seq<LegacyRow>, mostImportant: seq<string>)

  /** `DataFrame(shap_values, index=feature_names)` with `absolute_values` added. */
  function InputRows(values: seq<real>, names: seq<string>): (rows: seq<Row>)
    requires |values| == |names|
    ensures |rows| == |names|
    ensures forall i :: 0 <= i < |rows| ==> rows[i].feature == names[i] && rows[i].value == values[i]
                                            && rows[i].magnitude == Abs(values[i])
  {
    seq(|names|, i requires 0 <= i < |names| => Row(names[i], values[i], Abs(values[i])))
  }

  /**
   * `loc[first:last]` on a table whose labels are its positions 0..n-1 (as
   * `reset_index` leaves them): the rows labelled first to last, both included.
   */
  function LocInclusive<T>(s: seq<T>, first: nat, last: nat): (r: seq<T>)
    requires first <= last
    ensures |r| == Min(last + 1, |s|) - Min(first, |s|)
    ensures forall i :: 0 <= i < |r| ==> r[i] == s[first + i]
  {
    s[Min(first, |s|)..Min(last + 1, |s|)]
  }

  /** A sorted row with its `left`, `right` and `color` columns, numbered `index`. */
  function Decorate(index: nat, r: Row): LegacyRow
  {
    var v := r.value;
    LegacyRow(index, r.feature, v,
              if v < 0.0 then v else 0.0,
              if v > 0.0 then v else 0.0,
              if v > 0.0 then Formatter.IncreasesRisk else Formatter.DecreasesRisk)
  }

  function Features(t: seq<LegacyRow>): (r: seq<string>)
    ensures |r| == |t| && forall i :: 0 <= i < |t| ==> r[i] == t[i].feature
  {
    seq(|t|, i requires 0 <= i < |t| => t[i].feature)
  }

  /** What the function returns once the table is sorted. */
  function Explain(ranked: seq<Row>): LegacyExplanation
  {
    var selected := LocInclusive(ranked, 0, LastLabel);
    var table := seq(|selected|, i requires 0 <= i < |selected| => Decorate(i, selected[i]));
    LegacyExplanation(table, Reverse(Features(table)))
  }

  /** The sort columns of a returned row, rebuilt: the magnitude is |shap_values|. */
  function Kept(t: seq<LegacyRow>): (r: seq<Row>)
    ensures |r| == |t| && forall i :: 0 <= i < |t| ==> r[i] == Row(t[i].feature, t[i].shapValue, Abs(t[i].shapValue))
  {
    seq(|t|, i requires 0 <= i < |t| => Row(t[i].feature, t[i].shapValue, Abs(t[i].shapValue)))
  }

  /** The same sign split and colour rule as utils.py. */
  predicate SignSplit(e: LegacyRow)
  {
    Formatter.SplitsValue(e.shapValue, e.left, e.right, e.color)
  }

  /** Every property the returned table and name list have with respect to the input rows. */
  predicate Describes(e: LegacyExplanation, input: seq<Row>)
  {
    && |e.table| == Min(LastLabel + 1, |input|)
    && (forall i :: 0 <= i < |e.table| ==> e.table[i].index == i)
    && (forall i, j :: 0 <= i < j < |e.table| ==> Abs(e.table[i].shapValue) >= Abs(e.table[j].shapValue))
    && IsTopOf(Kept(e.table), input)
    && (forall i :: 0 <= i < |e.table| ==> SignSplit(e.table[i]))
    && e.mostImportant == Reverse(Features(e.table))
  }

  /** `loc[0:14]` keeps min(15, n) rows, the same as `head(15)`. */
  lemma LocKeepsFifteen<T>(s: seq<T>)
    ensures LocInclusive(s, 0, LastLabel) == Head(s, 15)
    ensures |LocInclusive(s, 0, LastLabel)| == Min(15, |s|)
  {
  }

  /** The legacy table ranks each row by the absolute value of its own value. */
  predicate RankedByAbs(input: seq<Row>)
  {
    forall k :: 0 <= k < |input| ==> input[k].magnitude == Abs(input[k].value)
  }

  lemma InputRankedByAbs(values: seq<real>, names: seq<string>)
    requires |values| == |names|
    ensures RankedByAbs(InputRows(values, names))
  {
  }

  /** A ranking of such a table is ranked by absolute value too. */
  lemma RankedMagnitudes(ranked: seq<Row>, input: seq<Row>)
    requires IsRanking(ranked, input) && RankedByAbs(input)
    ensures |ranked| == |input|
    ensures RankedByAbs(ranked)
  {
    assert |ranked| == |input| by { assert |multiset(ranked)| == |multiset(input)|; }
    forall i | 0 <= i < |ranked| ensures ranked[i].magnitude == Abs(ranked[i].value) {
      assert ranked[i] in multiset(input);
      var k :| 0 <= k < |input| && input[k] == ranked[i];
    }
  }

  lemma DecorateSplits(index: nat, r: Row)
    ensures SignSplit(Decorate(index, r)) && Decorate(index, r).index == index
  {
    assert Formatter.IncreasesRisk != Formatter.DecreasesRisk;
  }

  lemma ExplainRows(ranked: seq<Row>)
    ensures |Explain(ranked).table| == Min(LastLabel + 1, |ranked|)
    ensures forall i :: 0 <= i < |Explain(ranked).table| ==>
              Explain(ranked).table[i] == Decorate(i, ranked[i]) && SignSplit(Explain(ranked).table[i])
    ensures RankedByAbs(ranked) ==> Kept(Explain(ranked).table) == Head(ranked, 15)
  {
    var e := Explain(ranked);
    LocKeepsFifteen(ranked);
    forall i | 0 <= i < |e.table| ensures e.table[i] == Decorate(i, ranked[i]) && SignSplit(e.table[i]) {
      DecorateSplits(i, ranked[i]);
    }
    if RankedByAbs(ranked) {
      assert Kept(e.table) == Head(ranked, 15);
    }
  }

  lemma ExplainDescribes(ranked: seq<Row>, input: seq<Row>)
    requires IsRanking(ranked, input) && RankedByAbs(input)
    ensures Describes(Explain(ranked), input)
  {
    RankedMagnitudes(ranked, input);
    ExplainRows(ranked);
    HeadIsTopK(ranked, input, 15);
  }

  method FormatShapValues(shapValues: seq<real>, featureNames: seq<string>)
    returns (r: Result<LegacyExplanation, FormatError>)
    ensures r.Failure? <==> |shapValues| != |featureNames|
    ensures r.Failure? ==> r.error == LengthMismatch(|shapValues|, |featureNames|)
    ensures r.Success? ==> exists ranked :: IsRanking(ranked, InputRows(shapValues, featureNames))
                                          && r.value == Explain(ranked)
    ensures r.Success? ==> Describes(r.value, InputRows(shapValues, featureNames))
  {
    if |shapValues| != |featureNames| {
      return Failure(LengthMismatch(|shapValues|, |featureNames|));
    }
    var rows := InputRows(shapValues, featureNames);
    var df := new Row[|rows|](i requires 0 <= i < |rows| => rows[i]);
    assert df[..] == rows;
    SortByMagnitude(df);
    var ranked := df[..];
    InputRankedByAbs(shapValues, featureNames);
    ExplainDescribes(ranked, rows);
    r := Success(Explain(ranked));
  }

  /** The columns both formatters return: features, shap_values, left, right, color. */
  datatype Bar = Bar(feature: string, value: real, left: real, right: real, color: string)

  function LegacyBars(t: seq<LegacyRow>): seq<Bar>
  {
    seq(|t|, i requires 0 <= i < |t| => Bar(t[i].feature, t[i].shapValue, t[i].left, t[i].right, t[i].color))
  }

  function UtilsBars(t: seq<Formatter.ExplainedRow>): seq<Bar>
  {
    seq(|t|, i requires 0 <= i < |t| => Bar(t[i].feature, t[i].shapValue, t[i].left, t[i].right, t[i].color))
  }

  /**
   * On 1-D input both copies build the same table, so from the same sorted
   * order they return the same bars and the same name list.
   */
  lemma AgreesWithUtils(values: seq<real>, names: seq<string>, ranked: seq<Row>)
    requires |values| == |names|
    requires IsRanking(ranked, InputRows(values, names))
    ensures Formatter.InputRows(Formatter.Vector(values), names) == InputRows(values, names)
    ensures LegacyBars(Explain(ranked).table) == UtilsBars(Formatter.Explain(ranked).table)
    ensures Explain(ranked).mostImportant == Formatter.Explain(ranked).mostImportant
  {
    LocKeepsFifteen(ranked);
    var l, u := Explain(ranked), Formatter.Explain(ranked);
    assert |l.table| == |u.table|;
    assert forall i :: 0 <= i < |l.table| ==> l.table[i].feature == u.table[i].feature;
    assert Features(l.table) == Formatter.Features(u.table);
  }

  /**
   * Whatever order each sort leaves ties in, the two copies agree row by row
   * on the size of every bar: they can differ only by swapping equally
   * important features.
   */
  lemma DifferOnlyInTies(values: seq<real>, names: seq<string>, r1: seq<Row>, r2: seq<Row>)
    requires |values| == |names|
    requires IsRanking(r1, InputRows(values, names))
    requires IsRanking(r2, Formatter.InputRows(Formatter.Vector(values), names))
    ensures |Explain(r1).table| == |Formatter.Explain(r2).table|
    ensures forall i :: 0 <= i < |Explain(r1).table| ==>
              Abs(Explain(r1).table[i].shapValue) == Formatter.Explain(r2).table[i].absoluteValue
  {
    var input := InputRows(values, names);
    assert Formatter.InputRows(Formatter.Vector(values), names) == input;
    RankingsAgreeOnMagnitudes(r1, r2, input);
    RankedMagnitudes(r1, input);
    LocKeepsFifteen(r1);
  }
}
