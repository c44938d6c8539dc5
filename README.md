# Credit-risk dashboard core in Dafny

This project models the deterministic core of a credit-scoring dashboard. The
dashboard asks a remote scoring service, or a local classifier, for the
probability that a client defaults. It turns that probability into a decision
band and explains the decision with per-feature SHAP attributions. The
modelled pieces are:

- **Artifact loader** (`loader.dfy`, module `Loader`): `read_pickle` and
  `load_shap_explainer` of `utils.py`.
  - `read_pickle` resolves a path by probing `.pkl`, `.pickle` and `.joblib`.
    It then tries dill, pickle and joblib in that order, and if all three fail
    it reports every error.
  - `load_shap_explainer` falls back to rebuilding the explainer from the
    classifier. Saving the rebuilt explainer is best effort.
  - The file system is a `set<string>` of existing paths. Each deserialiser is
    a function from a path to `Loaded(obj)` or `Raised(message)`.
- **Prediction source** (`predictor.dfy`, module `Predictor`):
  `predict_with_api_or_local` of `utils.py`.
  - The HTTP exchange is given as its outcome.
  - The preprocessor and the two classifier capabilities are partial functions;
    `None` means the library call raises.
  - `PredictWithApiOrLocal` is the imperative version, with the column-drop
    loop. Its `ensures` clause ties it to the specification function `Predict`.
- **Attribution formatter** (`formatter.dfy`, module `Formatter`):
  `format_shap_values` of `utils.py`.
  - The method builds the table as an array, sorts it in place with
    `Frame.SortByMagnitude`, decorates each row with its diverging-bar parts and
    sign colour, keeps the first 15 and reverses the names.
  - pandas' default sort does not fix the order of ties. The method is
    therefore specified over *any* ranking, meaning any sorted permutation of
    the input rows, and with `Describes`, which spells out the promised
    properties.
- **Legacy formatter** (`legacy.dfy`, module `LegacyFormatter`): the Bokeh-era
  `format_shap_values` of `dashboard_functions.py`. It includes its
  label-inclusive `loc[0:14]` and its fresh `index` column. The module also
  proves that this formatter agrees with the `utils.py` one up to tie order.
- **Gauge colour** (`gauge.dfy`, module `Gauge`): the colour bands of
  `plot_gauge`.
- **Dashboard helpers** (`dashboard.dfy`, module `Dashboard`). These are the
  friendly-label table and lookup, the feature-option dictionary and the
  multiselect back-mapping, and the risk and decision bands on `prob*100`.
  They also cover `Column_i` renaming, selecting the class-1 SHAP row, the
  years-of-work label and the initial index of the client selector.
- `frame.dfy` (module `Frame`) holds what both formatters share, plus the
  ranking lemmas:
  - the table row;
  - the in-place insertion sort over an `array<Row>`;
  - `head` and reversal.
- `wrappers.dfy` holds `Option` and `Result`.

Where the documentation and the code disagree, the model follows the code:

- The docstring of `predict_with_api_or_local` promises a probability between
  0 and 1. The code never checks this, and neither does the model
  (`Predictor.NoRangeCheck`).
- The dashboard's decision calls a score of exactly 50 moderate, but the gauge
  paints it red (`Dashboard.GaugeDisagreesOnlyAtFifty`).

## Model

| member | source | states |
|---|---|---|
| Loader.FirstExisting | utils.py:30-34 | None exactly when no `path+ext` exists; otherwise the first existing candidate in extension order |
| Loader.TryInOrder | utils.py:40-58 | Fails exactly when every loader raises, and then carries one error per loader, in order. On success the object is the one loaded by the first loader that did not raise |
| Loader.InOrder | utils.py:41-54 | Exactly three deserialisers, in this order: dill's load, then pickle's, then joblib's |
| Loader.Resolve | utils.py:28-36 | Defines path resolution: the path itself if it exists, else `FirstExisting` over the extensions. The exact-path and extension rules are stated in `ExactPathWins` and `ExtensionOrder` |
| Loader.Load | utils.py:17-58 | Defines what `read_pickle` returns or raises: NotFound when nothing resolves, else `TryInOrder` over `InOrder`. Its properties are stated in `MissingFailsBeforeLoading` and `BackendOrder` |
| Loader.ReadPickle | utils.py:17-58 | The extension loop and the three tries compute exactly `Load` (resolution, then the ordered deserialisers) |
| Loader.ExactPathWins | utils.py:28-29 | An existing path is used as given |
| Loader.ExtensionOrder | utils.py:29-36 | Otherwise the first existing of `.pkl`, `.pickle`, `.joblib` is used, and resolution fails iff none exists |
| Loader.MissingFailsBeforeLoading | utils.py:35-36 | With nothing to resolve, the result is FileNotFoundError whatever the deserialisers would do: no loader runs |
| Loader.BackendOrder | utils.py:40-58 | dill's object if it loads, else pickle's, else joblib's; if all three raise, exactly three errors, dill, pickle, joblib |
| Loader.OutPath | utils.py:85-87 | The save target is `path+".pkl"` iff the path does not exist and has none of the three extensions, otherwise the path itself |
| Loader.SaveTarget | utils.py:85-87 | An existing path, or one already ending in an artifact extension, is saved to as given |
| Loader.LoadShapExplainer | utils.py:61-98 | Defines what `load_shap_explainer` returns or raises, together with the files that exist afterwards. Its properties are stated in `LoadedIsNotRebuilt` and `RebuildFallback` |
| Loader.LoadedIsNotRebuilt | utils.py:75-77 | A successful load is returned unchanged, and nothing is rebuilt or written |
| Loader.RebuildFallback | utils.py:78-98 | Any load failure falls back to the rebuilt explainer. An error is raised iff both the load and the rebuild fail. A failed save does not change the result. Requested and successful, the save writes exactly the save target `OutPath`. No other file can appear, and none appears unless saving was requested |
| Predictor.Without | utils.py:129-132 | The dropped table keeps every column whose name is not dropped, and only those |
| Predictor.WithoutConcat | utils.py:129-132 | Dropping columns distributes over concatenation, so the remaining columns keep their order |
| Predictor.WithoutUnchanged | utils.py:131 | Dropping absent names leaves the table as it is, and only absent names do |
| Predictor.WithoutTwice | utils.py:130-132 | Dropping one name after another equals dropping both |
| Predictor.StripIdentifiers | utils.py:129-132 | The loop over `SK_ID_CURR`, `TARGET` yields the table without those two columns |
| Predictor.RemoteScore | utils.py:109-122 | Defines the score of the remote attempt: present only with a truthy URL, a dict body and a `credit_score` that `float` accepts |
| Predictor.Classify | utils.py:140-152 | Defines the classifier step. Its preference order is stated in `ClassifierPreference` |
| Predictor.LocalPredict | utils.py:124-152 | Defines the local path: both parts required, the stripped row, then the preprocessor and the classifier. Its properties are stated in `NoLocalModelIsFatal`, `StrippedRowOnly` and `LocalFailures` |
| Predictor.Predict | utils.py:101-152 | Defines the whole function: an uncaught import failure, else the remote score, else the local path. Its properties are stated in the lemmas below |
| Predictor.PredictWithApiOrLocal | utils.py:101-152 | Returns or raises exactly what `Predict` says |
| Predictor.RemoteScoreWins | utils.py:109-119 | With a truthy URL and a dict holding a convertible `credit_score`, the result is that float. It does not depend on the row, the classifier or the preprocessor |
| Predictor.NoRangeCheck | utils.py:118-119 | Any real score from the service is returned unchanged |
| Predictor.FallsThroughToLocal | utils.py:109-122 | Each of these reaches the local path: no URL, a raised exception, a body that is not a dict, a missing key, an unconvertible score |
| Predictor.ImportFailureIsNotCaught | utils.py:109-111 | With a URL set, a failing `import requests` raises even when a local model is available; it is not the local result |
| Predictor.NoLocalModelIsFatal | utils.py:125-126 | After the fall-through, a missing classifier or preprocessor raises: no default is returned |
| Predictor.SuccessHasASource | utils.py:108-152 | Every returned probability is either the service's score or the classifier's output on the preprocessed, stripped row |
| Predictor.StrippedRowOnly | utils.py:128-136 | The preprocessor never sees `SK_ID_CURR` or `TARGET`. Identifier and label columns before or after the row do not change the local result |
| Predictor.ClassifierPreference | utils.py:140-149 | Uses `predict_proba(X)[0][1]` when present, whatever `predict` is; otherwise `predict(X)[0]`; otherwise an error |
| Predictor.LocalFailures | utils.py:135-152 | A preprocessor failure is reported as such, and so is a classifier failure |
| Frame.SortByMagnitude | utils.py:240-241 | Afterwards the array is in non-increasing magnitude order and is a permutation of its old contents |
| Frame.InsertLast | utils.py:240 | One insertion step: extends the sorted prefix by one row, keeps the multiset and leaves the rows after it in place |
| Frame.HeadIsTopK | utils.py:249 | The first k rows of a ranking are rows of the input, and no left-out row has a larger magnitude than a kept one |
| Frame.RankingsAgreeOnMagnitudes | utils.py:240 | Two rankings of one table hold the same magnitude at every position: ties are all that can differ |
| Frame.SortedPermutationsEqual | utils.py:240 | Two non-increasing sequences with the same elements are equal |
| Frame.MagnitudesPermute | utils.py:240 | Permuted rows have permuted magnitudes |
| Frame.Reverse | utils.py:252 | The reversal has the same length and holds element `n-1-i` at position `i` |
| Frame.Head | utils.py:249 | `head(k)` has `min(k, n)` rows and they are the first ones |
| Formatter.InputRows | utils.py:225-237 | One row per feature name, carrying that name. For 1-D input the value is `v[i]` with magnitude `abs(v[i])`; for 2-D input the value is the mean of the column and the magnitude the mean of its absolute values |
| Formatter.MeanBelowMagnitude | utils.py:225-230 | The displayed value never exceeds the ranking magnitude in absolute value, whether 1-D or mean over samples |
| Formatter.ColumnSumBound | utils.py:226-227 | The magnitude of a column sum is at most the sum of magnitudes |
| Formatter.SingleSampleIsVector | utils.py:225-230 | A one-sample 2-D input ranks and displays exactly like the 1-D vector |
| Formatter.Decorate | utils.py:244-246 | Defines the `left`, `right` and `color` columns of one row. Its properties are stated in `DecorateSplits` |
| Formatter.Explain | utils.py:244-252 | Defines the output on a sorted table: decorate, `head(15)`, reversed names. Its properties are stated in `ExplainDescribes` |
| Formatter.DecorateSplits | utils.py:244-246 | `left = min(v,0)`, `right = max(v,0)`, `left+right = v`; red iff `v > 0`, so zero is green |
| Formatter.ExplainDescribes | utils.py:240-252 | For any ranking the output has `min(15,n)` rows in non-increasing `absolute_values` order and is a top-k of the input. Every row is sign-split, and the name list is the reverse of the feature column |
| Formatter.FormatShapValues | utils.py:217-254 | Raises iff names and values differ in length. Otherwise the result is the explanation of some sorted permutation of the input rows and satisfies `Describes` |
| Formatter.AllPositiveAllRed | utils.py:246 | When every contribution is positive, every kept bar is red |
| LegacyFormatter.InputRows | dashboard_functions.py:41-43 | Row `i` holds name `i`, value `i` and `absolute_values = abs(v)` |
| LegacyFormatter.LocInclusive | dashboard_functions.py:56 | Label slicing `loc[a:b]` on a fresh 0..n-1 index includes `b` |
| LegacyFormatter.LocKeepsFifteen | dashboard_functions.py:44-56 | `loc[0:14]` after `reset_index` is the first `min(15, n)` rows |
| LegacyFormatter.Decorate | dashboard_functions.py:49-53 | Defines the `left`, `right` and `color` columns and the row number. Its properties are stated in `DecorateSplits` |
| LegacyFormatter.Explain | dashboard_functions.py:49-61 | Defines the output on a sorted table: `loc[0:14]`, fresh index, reversed names. Its properties are stated in `ExplainRows` and `ExplainDescribes` |
| LegacyFormatter.DecorateSplits | dashboard_functions.py:49-53 | Left and right parts sum to `v`, red iff `v > 0`, and each row carries its position as `index` |
| LegacyFormatter.ExplainRows | dashboard_functions.py:56-61 | `min(15,n)` rows, each the decorated i-th ranked row with `index == i`; the kept rows are the head of the ranking |
| LegacyFormatter.ExplainDescribes | dashboard_functions.py:43-61 | For any ranking, the output has `min(15,n)` rows with fresh indices, non-increasing in `abs(shap_values)`, a top-k of the input, with sign-split rows and reversed names |
| LegacyFormatter.FormatShapValues | dashboard_functions.py:35-63 | A length mismatch raises instead of truncating. Otherwise the output is the explanation of some ranking of the input and satisfies `Describes` |
| LegacyFormatter.RankedMagnitudes | dashboard_functions.py:43-44 | A ranking of the input rows is still ranked by `abs(shap_values)` |
| LegacyFormatter.AgreesWithUtils | dashboard_functions.py:41-61 | For 1-D input and the same ranking, both formatters build the same input rows, the same (feature, value, left, right, colour) bars and the same name list |
| LegacyFormatter.DifferOnlyInTies | dashboard_functions.py:44 | Under any two rankings the two outputs have the same length and the same magnitude at every position |
| Gauge.GaugeColor | utils.py:157-162 | Defines the bar colour. Its bands are stated in `GaugeBands` |
| Gauge.GaugeBands | utils.py:157-162 | Green below 30, orange on [30, 50), red from 50 |
| Dashboard.FormatFeatureName | dashboard.py:157-160 | Defines the lookup in the 105-entry `FriendlyNames` table. Its behaviour is stated in `FormatFeatureNameLookup` |
| Dashboard.FormatFeatureNameLookup | dashboard.py:24-160 | A known technical name gets its table label; any other name comes back unchanged, and the lookup never fails |
| Dashboard.FeatureOptions | dashboard.py:731 | Defines the label-to-feature dictionary, built in feature order. Its properties are stated in `FeatureOptionsLastWins` and `UniqueLabelRoundTrip` |
| Dashboard.LastIndex | dashboard.py:731 | The last position carrying a label, or -1 when there is none |
| Dashboard.FeatureOptionsLastWins | dashboard.py:731 | A label is a key iff some available feature carries it, and it maps to the last such feature |
| Dashboard.UniqueLabelRoundTrip | dashboard.py:731 | A feature whose label is unique is recovered from that label |
| Dashboard.LaterFeatureWins | dashboard.py:731 | Of two features sharing a label, the later one is kept and the earlier one is lost |
| Dashboard.SelectFeatures | dashboard.py:739 | One technical name per selected label |
| Dashboard.SelectionRecoversFeatures | dashboard.py:731-739 | Selecting unique labels maps back to exactly the chosen features, in the order chosen |
| Dashboard.Band | dashboard.py:546-566 | Defines the three bands on the score |
| Dashboard.Assess | dashboard.py:543-566 | Defines the level label, colour and decision shown for a probability. Its intervals are stated in `BandIntervals` and `BandMonotone` |
| Dashboard.BandIntervals | dashboard.py:543-566 | ACCEPTÉ iff `s < 30`, EXAMEN REQUIS iff `30 <= s <= 50`, REFUSÉ iff `s > 50`; 30 and 50 are moderate |
| Dashboard.BandMonotone | dashboard.py:546-566 | A higher probability never gets a milder band |
| Dashboard.GaugeDisagreesOnlyAtFifty | dashboard.py:543-566 | The gauge colour for the same score matches the band everywhere except at exactly 50 |
| Dashboard.ColumnMapping | dashboard.py:653 | Defines the `Column_i` dictionary in enumeration order. Its entries are stated in `ColumnMappingEntries` |
| Dashboard.MapFeature | dashboard.py:673 | Defines `.map(mapping).fillna(...)` on one name. Its behaviour is stated in `ColumnRenaming` |
| Dashboard.ColumnMappingEntries | dashboard.py:653 | The keys are exactly `Column_0`..`Column_{n-1}`, each mapping to its column |
| Dashboard.ColumnRenaming | dashboard.py:653-673 | `Column_i` with `i` below the column count becomes the i-th column name; every other name is unchanged |
| Dashboard.NatToStringInjective | dashboard.py:653 | Distinct numbers give distinct `str(i)`, so two `Column_i` keys never clash |
| Dashboard.RenameTable | dashboard.py:673 | Only the feature name of each row is mapped |
| Dashboard.RenamingKeepsPlainNames | dashboard.py:673 | A table with no `Column_i` names is left unchanged |
| Dashboard.RenameExplanation | dashboard.py:673-675 | Defines the renamed table and the friendly name list. Its properties are stated in `RenameChangesOnlyNames` |
| Dashboard.RenameChangesOnlyNames | dashboard.py:673-675 | Values, bars and colours stay; the ordered list goes through the friendly labels |
| Dashboard.ClassOneVector | dashboard.py:664-668 | `shap_vals[1][0]` for a list, `shap_vals[0]` otherwise, and an index error exactly where these indices are out of range |
| Dashboard.PositiveClassChosen | dashboard.py:665-666 | For a binary explainer's list, the class-1 row is used |
| Dashboard.YearsWorkLabel | dashboard.py:423-432 | Defines the label. Its bands are stated in `YearsWorkBands` |
| Dashboard.YearsWorkBands | dashboard.py:423-432 | Below 1 gives 'Less than a year' and 1 gives '1 year'. Distinct counts from 1 up get distinct labels, and none equals 'no information' |
| Dashboard.SelectorIndex | dashboard.py:273 | The index is in `[0, len(ids)]`. It is 0 iff nothing is selected or the selection is absent. Otherwise the option at the index is the selection |
| Dashboard.IndexOf | dashboard.py:273 | `list.index`: the first position of the id |
| Dashboard.Options | dashboard.py:269 | The empty entry, then every id |

## Left out

- File, network and library I/O are parameters.
  - The file system is the set of existing paths, and a deserialiser is a
    function from a path to its outcome.
  - `shap.TreeExplainer(classifier)`, including a failing `import shap`, is
    one `Rebuild` outcome.
  - The HTTP POST, its timeout, `raise_for_status`, `response.json()` and
    `int(client_id)` are folded into `RemoteOutcome.Raised` or the decoded
    body. A failing `import requests`, which comes before the `try`, is
    `RemoteOutcome.ImportFailed`: it raises and does not fall back.
  - The sklearn preprocessor and classifier are partial functions.
- Loader.LoadShapExplainer: a save that fails after creating a partial file is
  modelled as leaving the file set unchanged.
- Loader.ReadPickle: the error messages keep each backend's message but not
  Python's formatted RuntimeError text.
- Formatter.FormatShapValues: requires a rectangular 2-D input with at least
  one sample, because numpy gives NaN means for zero samples and the model has
  no NaN.
  - A 3-D SHAP array is not modelled.
  - Values are reals: no floating-point rounding or NaN ordering.
- Formatter.FormatShapValues and LegacyFormatter.FormatShapValues: the order
  of ties is not promised, because the default pandas sort is not stable. Both
  contracts therefore say "some sorted permutation" rather than naming one
  order.
- LegacyFormatter.FormatShapValues: takes 1-D input only; the legacy code is
  not written for 2-D input.
- Dashboard.YearsWorkLabel: takes the whole number of years as input.
  `-int(round(days/365))`, with its banker's rounding, is not modelled; `None`
  stands for the exception it raises on a missing value.
- Dashboard.ClassOneVector: the recent SHAP return shape of a 3-D array
  `(1, n, 2)` is not modelled; a single array is taken as a list of rows.
- Dashboard.SelectorIndex: a selection is `''` or an integer id.
  `st.session_state` and its updates in the surrounding script are not
  modelled.
- Dashboard.FormatFeatureNameLookup: it states the lookup for any name but
  does not evaluate individual table entries; the table is the constant
  `FriendlyNames`.
- Dashboard.Assess, Dashboard.RiskScore, Gauge.GaugeColor, Predictor.RemoteScore:
  scores are reals and `prob*100` is the exact product, not the rounded
  double the program compares. The double written `0.3` is slightly below
  0.3, so here it falls in the low band with a green gauge, while the program
  rounds `0.3*100` to `30.0` and shows the moderate band with an orange gauge.
  NaN and infinite scores (a JSON `NaN` passes `float()`) are not modelled;
  the program puts NaN in the high band with a red gauge.
- Dashboard assessment: the icons and recommendation sentences shown with each
  band are display text and not modelled; the labels, colours and decisions
  are.
- All Streamlit layout, widgets and CSS are rendering only and not modelled.
  So are the Plotly and Bokeh figures (`plot_gauge`'s figure,
  `plot_important_features`, `plot_feature_distrib`), the detailed-information
  view (CSV reads, histograms, descriptions) and `recreate_shap_explainer.py`.
