/**
 * The pure helpers of dashboard.py: friendly feature labels, the risk decision
 * on the probability, renaming of `Column_i` features, the class-1 attribution
 * row, the years-of-work label and the client selector's initial index.
 */
module Dashboard {
  import opened Wrappers
  import Gauge
  import Formatter

  /** The table of `get_friendly_feature_names`. */
  const FriendlyNames: map<string, string> := map[
    "CNT_CHILDREN" := "Number of Children",
    "CNT_FAM_MEMBERS" := "Family Members",
    "DAYS_BIRTH" := "Age (days)",
    "DAYS_EMPLOYED" := "Employment Duration (days)",
    "DAYS_REGISTRATION" := "Registration Duration (days)",
    "DAYS_ID_PUBLISH" := "ID Publication Date (days)",
    "DAYS_LAST_PHONE_CHANGE" := "Phone Change Date (days)",
    "OWN_CAR_AGE" := "Car Age (years)",
    "AMT_INCOME_TOTAL" := "Total Income",
    "AMT_CREDIT" := "Credit Amount",
    "AMT_ANNUITY" := "Loan Annuity",
    "AMT_GOODS_PRICE" := "Goods Price",
    "REGION_POPULATION_RELATIVE" := "Regional Population (relative)",
    "EXT_SOURCE_1" := "External Score 1",
    "EXT_SOURCE_2" := "External Score 2",
    "EXT_SOURCE_3" := "External Score 3",
    "APARTMENTS_AVG" := "Apartments (avg)",
    "BASEMENTAREA_AVG" := "Basement Area (avg)",
    "YEARS_BEGINEXPLUATATION_AVG" := "Building Age (avg)",
    "YEARS_BUILD_AVG" := "Construction Year (avg)",
    "COMMONAREA_AVG" := "Common Area (avg)",
    "ELEVATORS_AVG" := "Elevators (avg)",
    "ENTRANCES_AVG" := "Entrances (avg)",
    "FLOORSMAX_AVG" := "Max Floors (avg)",
    "FLOORSMIN_AVG" := "Min Floors (avg)",
    "LANDAREA_AVG" := "Land Area (avg)",
    "LIVINGAPARTMENTS_AVG" := "Living Apartments (avg)",
    "LIVINGAREA_AVG" := "Living Area (avg)",
    "NONLIVINGAPARTMENTS_AVG" := "Non-living Apartments (avg)",
    "NONLIVINGAREA_AVG" := "Non-living Area (avg)",
    "TOTALAREA_MODE" := "Total Area (mode)",
    "APARTMENTS_MODE" := "Apartments (mode)",
    "BASEMENTAREA_MODE" := "Basement Area (mode)",
    "YEARS_BEGINEXPLUATATION_MODE" := "Building Age (mode)",
    "YEARS_BUILD_MODE" := "Construction Year (mode)",
    "COMMONAREA_MODE" := "Common Area (mode)",
    "ELEVATORS_MODE" := "Elevators (mode)",
    "ENTRANCES_MODE" := "Entrances (mode)",
    "FLOORSMAX_MODE" := "Max Floors (mode)",
    "FLOORSMIN_MODE" := "Min Floors (mode)",
    "LANDAREA_MODE" := "Land Area (mode)",
    "LIVINGAPARTMENTS_MODE" := "Living Apartments (mode)",
    "LIVINGAREA_MODE" := "Living Area (mode)",
    "NONLIVINGAPARTMENTS_MODE" := "Non-living Apartments (mode)",
    "NONLIVINGAREA_MODE" := "Non-living Area (mode)",
    "APARTMENTS_MEDI" := "Apartments (median)",
    "BASEMENTAREA_MEDI" := "Basement Area (median)",
    "YEARS_BEGINEXPLUATATION_MEDI" := "Building Age (median)",
    "YEARS_BUILD_MEDI" := "Construction Year (median)",
    "COMMONAREA_MEDI" := "Common Area (median)",
    "ELEVATORS_MEDI" := "Elevators (median)",
    "ENTRANCES_MEDI" := "Entrances (median)",
    "FLOORSMAX_MEDI" := "Max Floors (median)",
    "FLOORSMIN_MEDI" := "Min Floors (median)",
    "LANDAREA_MEDI" := "Land Area (median)",
    "LIVINGAPARTMENTS_MEDI" := "Living Apartments (median)",
    "LIVINGAREA_MEDI" := "Living Area (median)",
    "NONLIVINGAPARTMENTS_MEDI" := "Non-living Apartments (median)",
    "NONLIVINGAREA_MEDI" := "Non-living Area (median)",
    "OBS_30_CNT_SOCIAL_CIRCLE" := "Social Circle Observations (30 days)",
    "DEF_30_CNT_SOCIAL_CIRCLE" := "Social Circle Defaults (30 days)",
    "OBS_60_CNT_SOCIAL_CIRCLE" := "Social Circle Observations (60 days)",
    "DEF_60_CNT_SOCIAL_CIRCLE" := "Social Circle Defaults (60 days)",
    "AMT_REQ_CREDIT_BUREAU_HOUR" := "Credit Bureau Requests (last hour)",
    "AMT_REQ_CREDIT_BUREAU_DAY" := "Credit Bureau Requests (last day)",
    "AMT_REQ_CREDIT_BUREAU_WEEK" := "Credit Bureau Requests (last week)",
    "AMT_REQ_CREDIT_BUREAU_MON" := "Credit Bureau Requests (last month)",
    "AMT_REQ_CREDIT_BUREAU_QRT" := "Credit Bureau Requests (last quarter)",
    "AMT_REQ_CREDIT_BUREAU_YEAR" := "Credit Bureau Requests (last year)",
    "REGION_RATING_CLIENT" := "Regional Client Rating",
    "REGION_RATING_CLIENT_W_CITY" := "Regional City Rating",
    "REG_REGION_NOT_LIVE_REGION" := "Registration Region \U{2260} Living Region",
    "REG_REGION_NOT_WORK_REGION" := "Registration Region \U{2260} Work Region",
    "LIVE_REGION_NOT_WORK_REGION" := "Living Region \U{2260} Work Region",
    "REG_CITY_NOT_LIVE_CITY" := "Registration City \U{2260} Living City",
    "REG_CITY_NOT_WORK_CITY" := "Registration City \U{2260} Work City",
    "LIVE_CITY_NOT_WORK_CITY" := "Living City \U{2260} Work City",
    "FLAG_DOCUMENT_2" := "Document 2 Provided",
    "FLAG_DOCUMENT_3" := "Document 3 Provided",
    "FLAG_DOCUMENT_4" := "Document 4 Provided",
    "FLAG_DOCUMENT_5" := "Document 5 Provided",
    "FLAG_DOCUMENT_6" := "Document 6 Provided",
    "FLAG_DOCUMENT_7" := "Document 7 Provided",
    "FLAG_DOCUMENT_8" := "Document 8 Provided",
    "FLAG_DOCUMENT_9" := "Document 9 Provided",
    "FLAG_DOCUMENT_10" := "Document 10 Provided",
    "FLAG_DOCUMENT_11" := "Document 11 Provided",
    "FLAG_DOCUMENT_12" := "Document 12 Provided",
    "FLAG_DOCUMENT_13" := "Document 13 Provided",
    "FLAG_DOCUMENT_14" := "Document 14 Provided",
    "FLAG_DOCUMENT_15" := "Document 15 Provided",
    "FLAG_DOCUMENT_16" := "Document 16 Provided",
    "FLAG_DOCUMENT_17" := "Document 17 Provided",
    "FLAG_DOCUMENT_18" := "Document 18 Provided",
    "FLAG_DOCUMENT_19" := "Document 19 Provided",
    "FLAG_DOCUMENT_20" := "Document 20 Provided",
    "FLAG_DOCUMENT_21" := "Document 21 Provided",
    "FLAG_MOBIL" := "Mobile Phone Provided",
    "FLAG_EMP_PHONE" := "Work Phone Provided",
    "FLAG_WORK_PHONE" := "Work Phone Available",
    "FLAG_CONT_MOBILE" := "Mobile Contact Available",
    "FLAG_PHONE" := "Home Phone Provided",
    "FLAG_EMAIL" := "Email Provided",
    "HOUR_APPR_PROCESS_START" := "Application Hour",
    "WEEKDAY_APPR_PROCESS_START" := "Application Weekday"
  ]

  /** `friendly_names.get(feature_name, feature_name)`. */
  function FormatFeatureName(featureName: string): string
  {
    if featureName in FriendlyNames then FriendlyNames[featureName] else featureName
  }

  /** Known names get their label, anything else comes back unchanged; the lookup never fails. */
  lemma FormatFeatureNameLookup(f: string)
    ensures f in FriendlyNames ==> FormatFeatureName(f) == FriendlyNames[f]
    ensures f !in FriendlyNames ==> FormatFeatureName(f) == f
  {
  }

  /**
   * `{label(f): f for f in features}`. The dashboard uses `FormatFeatureName`
   * as the label function.
   */
  function FeatureOptions(labelOf: string -> string, features: seq<string>): map<string, string>
  {
    if features == [] then map[]
    else FeatureOptions(labelOf, features[..|features| - 1])[labelOf(features[|features| - 1]) := features[|features| - 1]]
  }

  /** The last position whose feature carries label k, or -1 when none does. */
  function LastIndex(labelOf: string -> string, features: seq<string>, k: string): (r: int)
    ensures -1 <= r < |features|
    ensures r >= 0 ==> labelOf(features[r]) == k
    ensures forall j :: r < j < |features| ==> labelOf(features[j]) != k
  {
    if features == [] then -1
    else if labelOf(features[|features| - 1]) == k then |features| - 1
    else LastIndex(labelOf, features[..|features| - 1], k)
  }

  /**
   * A label is a key exactly when some feature carries it, and its value is
   * the last feature carrying it: later features overwrite earlier ones.
   */
  lemma {:induction false} FeatureOptionsLastWins(labelOf: string -> string, features: seq<string>, k: string)
    ensures k in FeatureOptions(labelOf, features) <==> LastIndex(labelOf, features, k) >= 0
    ensures k in FeatureOptions(labelOf, features)
            ==> FeatureOptions(labelOf, features)[k] == features[LastIndex(labelOf, features, k)]
  {
    if features != [] {
      var prefix := features[..|features| - 1];
      FeatureOptionsLastWins(labelOf, prefix, k);
      var p := LastIndex(labelOf, prefix, k);
      if p >= 0 {
        assert prefix[p] == features[p];
      }
    }
  }

  /** A feature whose label no other available feature shares is recovered from its label. */
  lemma UniqueLabelRoundTrip(labelOf: string -> string, features: seq<string>, i: nat)
    requires i < |features|
    requires forall j :: 0 <= j < |features| && j != i ==> labelOf(features[j]) != labelOf(features[i])
    ensures labelOf(features[i]) in FeatureOptions(labelOf, features)
    ensures FeatureOptions(labelOf, features)[labelOf(features[i])] == features[i]
  {
    FeatureOptionsLastWins(labelOf, features, labelOf(features[i]));
    assert LastIndex(labelOf, features, labelOf(features[i])) == i;
  }

  /** When two different features share a label, the key holds the last of them. */
  lemma LaterFeatureWins(labelOf: string -> string, features: seq<string>, i: nat, j: nat)
    requires i < j < |features|
    requires labelOf(features[i]) == labelOf(features[j])
    requires forall m :: j < m < |features| ==> labelOf(features[m]) != labelOf(features[j])
    requires features[i] != features[j]
    ensures labelOf(features[j]) in FeatureOptions(labelOf, features)
    ensures FeatureOptions(labelOf, features)[labelOf(features[j])] == features[j]
    ensures FeatureOptions(labelOf, features)[labelOf(features[i])] != features[i]
  {
    FeatureOptionsLastWins(labelOf, features, labelOf(features[j]));
    assert LastIndex(labelOf, features, labelOf(features[j])) == j;
  }

  /** `[feature_options[f] for f in selected_friendly]`; the multiselect offers only keys. */
  function SelectFeatures(options: map<string, string>, selected: seq<string>): (r: seq<string>)
    requires forall k :: 0 <= k < |selected| ==> selected[k] in options
    ensures |r| == |selected|
  {
    seq(|selected|, k requires 0 <= k < |selected| => options[selected[k]])
  }

  /** Selecting the labels of features with unique labels gives back those features, in the order chosen. */
  lemma SelectionRecoversFeatures(labelOf: string -> string, features: seq<string>, chosen: seq<nat>)
    requires forall k :: 0 <= k < |chosen| ==> chosen[k] < |features|
    requires forall k, j :: 0 <= k < |chosen| && 0 <= j < |features| && j != chosen[k]
               ==> labelOf(features[j]) != labelOf(features[chosen[k]])
    ensures forall k :: 0 <= k < |chosen| ==> labelOf(features[chosen[k]]) in FeatureOptions(labelOf, features)
    ensures SelectFeatures(FeatureOptions(labelOf, features),
                           seq(|chosen|, k requires 0 <= k < |chosen| => labelOf(features[chosen[k]])))
            == seq(|chosen|, k requires 0 <= k < |chosen| => features[chosen[k]])
  {
    forall k | 0 <= k < |chosen|
      ensures labelOf(features[chosen[k]]) in FeatureOptions(labelOf, features)
      ensures FeatureOptions(labelOf, features)[labelOf(features[chosen[k]])] == features[chosen[k]]
    {
      UniqueLabelRoundTrip(labelOf, features, chosen[k]);
    }
  }

  // ---- Risk decision ----

  datatype RiskLevel = Low | Moderate | High

  /** What the results section shows for a band. */
  datatype Assessment = Assessment(level: string, color: string, decision: string)

  function RiskScore(prob: real): real
  {
    prob * 100.0
  }

  /** The band of a score on the 0-100 scale: below 30, up to 50 inclusive, above 50. */
  function Band(riskScore: real): RiskLevel
  {
    if riskScore < 30.0 then Low else if riskScore <= 50.0 then Moderate else High
  }

  function Describe(level: RiskLevel): Assessment
  {
    match level
    case Low => Assessment("Risque Faible", "#28a745", "ACCEPTÉ")
    case Moderate => Assessment("Risque Modéré", "#ffc107", "EXAMEN REQUIS")
    case High => Assessment("Risque Élevé", "#dc3545", "REFUSÉ")
  }

  /** The assessment for a default probability. */
  function Assess(prob: real): Assessment
  {
    Describe(Band(RiskScore(prob)))
  }

  function Order(level: RiskLevel): nat
  {
    match level
    case Low => 0
    case Moderate => 1
    case High => 2
  }

  /** Each band is exactly its interval of scores; both 30 and 50 are moderate. */
  lemma BandIntervals(prob: real)
    ensures Assess(prob).decision == "ACCEPTÉ" <==> prob * 100.0 < 30.0
    ensures Assess(prob).decision == "EXAMEN REQUIS" <==> 30.0 <= prob * 100.0 <= 50.0
    ensures Assess(prob).decision == "REFUSÉ" <==> 50.0 < prob * 100.0
    ensures Band(30.0) == Moderate && Band(50.0) == Moderate
  {
  }

  /** A higher probability never gets a milder decision. */
  lemma BandMonotone(p: real, q: real)
    requires p <= q
    ensures Order(Band(RiskScore(p))) <= Order(Band(RiskScore(q)))
  {
  }

  /** The gauge colour in the same palette position as a band. */
  function BandGaugeColor(level: RiskLevel): string
  {
    match level
    case Low => Gauge.Green
    case Moderate => Gauge.Orange
    case High => Gauge.Red
  }

  /**
   * The gauge, drawn on the same score, agrees with the decision band
   * everywhere except at exactly 50, which the decision calls moderate and
   * the gauge paints red.
   */
  lemma GaugeDisagreesOnlyAtFifty(prob: real)
    ensures Gauge.GaugeColor(RiskScore(prob)) == BandGaugeColor(Band(RiskScore(prob))) <==> RiskScore(prob) != 50.0
  {
    Gauge.GaugeBands(RiskScore(prob));
  }

  // ---- Column_i renaming ----

  function DigitChar(d: nat): char
    requires d < 10
  {
    (48 + d) as char
  }

  /** `str(n)` for a natural number: decimal digits, no leading zero. */
  function NatToString(n: nat): (r: string)
    ensures 1 <= |r|
    ensures n >= 10 ==> |r| >= 2
    ensures forall k :: 0 <= k < |r| ==> '0' <= r[k] <= '9'
  {
    if n < 10 then [DigitChar(n)] else NatToString(n / 10) + [DigitChar(n % 10)]
  }

  lemma {:induction false} NatToStringInjective(a: nat, b: nat)
    requires NatToString(a) == NatToString(b)
    ensures a == b
  {
    if a >= 10 && b >= 10 {
      var sa, sb := NatToString(a), NatToString(b);
      assert sa[|sa| - 1] == sb[|sb| - 1];
      assert sa[..|sa| - 1] == NatToString(a / 10);
      assert sb[..|sb| - 1] == NatToString(b / 10);
      NatToStringInjective(a / 10, b / 10);
    }
  }

  function ColumnKey(i: nat): string
  {
    "Column_" + NatToString(i)
  }

  lemma ColumnKeyInjective(i: nat, j: nat)
    requires ColumnKey(i) == ColumnKey(j)
    ensures i == j
  {
    assert ColumnKey(i)[7..] == NatToString(i);
    assert ColumnKey(j)[7..] == NatToString(j);
    NatToStringInjective(i, j);
  }

  /** `{f"Column_{i}": name for i, name in enumerate(df.columns)}`. */
  function ColumnMapping(columns: seq<string>): map<string, string>
  {
    if columns == [] then map[]
    else ColumnMapping(columns[..|columns| - 1])[ColumnKey(|columns| - 1) := columns[|columns| - 1]]
  }

  /** The keys are exactly `Column_0` .. `Column_{n-1}`, and `Column_i` maps to the i-th column name. */
  lemma {:induction false} ColumnMappingEntries(columns: seq<string>)
    ensures forall i :: 0 <= i < |columns| ==>
              ColumnKey(i) in ColumnMapping(columns) && ColumnMapping(columns)[ColumnKey(i)] == columns[i]
    ensures forall f :: f in ColumnMapping(columns) ==> exists i :: 0 <= i < |columns| && f == ColumnKey(i)
  {
    if columns != [] {
      var n := |columns| - 1;
      var prefix := columns[..n];
      ColumnMappingEntries(prefix);
      forall i | 0 <= i < n ensures ColumnKey(i) != ColumnKey(n) {
        if ColumnKey(i) == ColumnKey(n) {
          ColumnKeyInjective(i, n);
        }
      }
      assert forall i :: 0 <= i < n ==> prefix[i] == columns[i];
    }
  }

  /** `.map(mapping).fillna(features)` on one feature name. */
  function MapFeature(mapping: map<string, string>, f: string): string
  {
    if f in mapping then mapping[f] else f
  }

  /** `Column_i` with i below the column count becomes the i-th column name; every other name is kept. */
  lemma ColumnRenaming(columns: seq<string>, f: string)
    ensures forall i :: 0 <= i < |columns| ==> MapFeature(ColumnMapping(columns), ColumnKey(i)) == columns[i]
    ensures (forall i :: 0 <= i < |columns| ==> f != ColumnKey(i)) ==> MapFeature(ColumnMapping(columns), f) == f
  {
    ColumnMappingEntries(columns);
  }

  /** Renaming the table touches only the feature names; values, bars and colours stay. */
  function RenameTable(mapping: map<string, string>, t: seq<Formatter.ExplainedRow>): (r: seq<Formatter.ExplainedRow>)
    ensures |r| == |t|
    ensures forall i :: 0 <= i < |t| ==> r[i] == t[i].(feature := MapFeature(mapping, t[i].feature))
  {
    seq(|t|, i requires 0 <= i < |t| => t[i].(feature := MapFeature(mapping, t[i].feature)))
  }

  /** `[format_feature_name(f) for f in most_important_features]`. */
  function FriendlyList(names: seq<string>): (r: seq<string>)
    ensures |r| == |names|
  {
    seq(|names|, i requires 0 <= i < |names| => FormatFeatureName(names[i]))
  }

  /**
   * When no attribution name is a `Column_i` key, the renaming leaves the
   * table as it is.
   */
  lemma RenamingKeepsPlainNames(columns: seq<string>, t: seq<Formatter.ExplainedRow>)
    requires forall k, i :: 0 <= k < |t| && 0 <= i < |columns| ==> t[k].feature != ColumnKey(i)
    ensures RenameTable(ColumnMapping(columns), t) == t
  {
    forall k | 0 <= k < |t| ensures MapFeature(ColumnMapping(columns), t[k].feature) == t[k].feature {
      ColumnRenaming(columns, t[k].feature);
    }
  }

  /**
   * The explanation as the chart receives it: table features through the
   * `Column_i` mapping, the ordered name list through the friendly labels.
   */
  function RenameExplanation(columns: seq<string>, e: Formatter.Explanation): Formatter.Explanation
  {
    Formatter.Explanation(RenameTable(ColumnMapping(columns), e.table), FriendlyList(e.mostImportant))
  }

  /** Renaming changes names only: the row count, values, bars and colours stay, and so does the list's length. */
  lemma RenameChangesOnlyNames(columns: seq<string>, e: Formatter.Explanation)
    ensures |RenameExplanation(columns, e).table| == |e.table|
    ensures forall k :: 0 <= k < |e.table| ==>
              var (r, o) := (RenameExplanation(columns, e).table[k], e.table[k]);
              r.shapValue == o.shapValue && r.absoluteValue == o.absoluteValue
              && r.left == o.left && r.right == o.right && r.color == o.color
    ensures |RenameExplanation(columns, e).mostImportant| == |e.mostImportant|
    ensures forall k :: 0 <= k < |e.mostImportant| ==>
              RenameExplanation(columns, e).mostImportant[k] == FormatFeatureName(e.mostImportant[k])
  {
  }

  // ---- Class-1 attribution row ----

  /** What `shap_values` returns: one array per class, or a single array. */
  datatype ShapOutput = PerClass(classes: seq<seq<seq<real>>>) | SingleArray(rows: seq<seq<real>>)

  /** `shap_vals[1][0]` for a list, `shap_vals[0]` otherwise; None where the index would raise. */
  function ClassOneVector(s: ShapOutput): (r: Option<seq<real>>)
    ensures r.None? <==> (s.PerClass? && (|s.classes| < 2 || |s.classes[1]| == 0)) || (s.SingleArray? && |s.rows| == 0)
    ensures s.PerClass? && r.Some? ==> r.value == s.classes[1][0]
    ensures s.SingleArray? && r.Some? ==> r.value == s.rows[0]
  {
    match s
    case PerClass(classes) => if |classes| > 1 && |classes[1]| > 0 then Some(classes[1][0]) else None
    case SingleArray(rows) => if |rows| > 0 then Some(rows[0]) else None
  }

  /** For a binary explainer's list the positive class is used, never the negative one. */
  lemma PositiveClassChosen(class0: seq<real>, class1: seq<real>)
    ensures ClassOneVector(PerClass([[class0], [class1]])) == Some(class1)
  {
  }

  // ---- Years-of-work label ----

  /**
   * The sidebar label for the employment length in whole years; None when the
   * computation from DAYS_EMPLOYED raises.
   */
  function YearsWorkLabel(yearsWork: Option<int>): string
  {
    match yearsWork
    case None => "no information"
    case Some(y) =>
      if y < 1 then "Less than a year"
      else if y == 1 then NatToString(1) + " year"
      else NatToString(y) + " years"
  }

  /** The label banding, and distinct year counts from one up get distinct labels. */
  lemma YearsWorkBands(y: int, z: int)
    ensures y < 1 ==> YearsWorkLabel(Some(y)) == "Less than a year"
    ensures YearsWorkLabel(Some(1)) == "1 year"
    ensures y >= 1 && z >= 1 && y != z ==> YearsWorkLabel(Some(y)) != YearsWorkLabel(Some(z))
    ensures YearsWorkLabel(Some(y)) != YearsWorkLabel(None)
  {
    assert NatToString(1) == "1";
    if y >= 1 && z >= 1 && YearsWorkLabel(Some(y)) == YearsWorkLabel(Some(z)) {
      if y > 1 && z > 1 {
        SuffixCancel(NatToString(y), NatToString(z), " years");
        NatToStringInjective(y, z);
      }
    }
    if y >= 2 {
      assert YearsWorkLabel(Some(y))[0] == NatToString(y)[0];
    }
  }

  lemma SuffixCancel(a: string, b: string, suffix: string)
    requires a + suffix == b + suffix
    ensures a == b
  {
    assert a == (a + suffix)[..|a|];
    assert b == (b + suffix)[..|b|];
  }

  // ---- Client selector ----

  /** `''` (nothing chosen yet) or a client id. */
  datatype Selection = NoSelection | Client(id: int)

  /** The selectbox options: the empty entry, then every client id. */
  function Options(ids: seq<int>): (r: seq<Selection>)
    ensures |r| == |ids| + 1 && r[0] == NoSelection
    ensures forall i :: 0 <= i < |ids| ==> r[i + 1] == Client(ids[i])
  {
    [NoSelection] + seq(|ids|, i requires 0 <= i < |ids| => Client(ids[i]))
  }

  /** `list.index`: the first position of x. */
  function IndexOf(ids: seq<int>, x: int): (r: nat)
    requires x in ids
    ensures r < |ids| && ids[r] == x
    ensures forall j :: 0 <= j < r ==> ids[j] != x
  {
    if ids[0] == x then 0 else 1 + IndexOf(ids[1..], x)
  }

  /** The `index=` expression of the client selectbox. */
  function SelectorIndex(selected: Selection, ids: seq<int>): (r: nat)
    ensures r <= |ids|
    ensures r == 0 <==> selected == NoSelection || selected.id !in ids
    ensures Options(ids)[r] == selected || (r == 0 && selected.Client? && selected.id !in ids)
  {
    if selected == NoSelection then 0
    else if selected.id in ids then IndexOf(ids, selected.id) + 1
    else 0
  }
}
