/**
 * `predict_with_api_or_local` of utils.py: one attempt at the remote scoring
 * service, then the local preprocessor and classifier. The HTTP exchange is
 * given as its outcome, and the preprocessor and classifier as partial
 * functions (None where the library call raises).
 */
module Predictor {
  import opened Wrappers

  const IdColumn: string := "SK_ID_CURR"
  const LabelColumn: string := "TARGET"
  /** The columns taken out of the row before preprocessing, in the order the loop drops them. */
  const Stripped: seq<string> := [IdColumn, LabelColumn]
  /** The response field holding the score. */
  const ScoreField: string := "credit_score"

  datatype Cell = Number(x: real) | Category(s: string) | Missing
  datatype Column = Column(name: string, cells: seq<Cell>)
  /** A DataFrame as its columns, in order; names may repeat. */
  type Table = seq<Column>
  type Matrix = seq<seq<real>>

  /** A field of the decoded JSON body. */
  datatype JsonValue = JNumber(n: real) | JBool(b: bool) | JText(s: string) | JNull | JArrayOrObject
  /** The decoded body: a dict, or any other JSON value. */
  datatype Content = JsonObject(fields: map<string, JsonValue>) | NotAnObject

  /**
   * The remote attempt. `ImportFailed` is `import requests` raising: it sits
   * before the try, so nothing catches it. `Raised` stands for every exception
   * inside the try: `int(client_id)`, the POST with its timeout,
   * `raise_for_status` on a non-2xx status and `response.json()` on a body
   * that is not JSON.
   */
  datatype RemoteOutcome = ImportFailed | Raised | Returned(content: Content)

  datatype Preprocessor = Preprocessor(transform: Table -> Option<Matrix>)

  /** What `hasattr` finds on the classifier: `predict_proba`, `predict`, both or neither. */
  datatype Classifier = Classifier(predictProba: Option<Matrix -> Option<Matrix>>,
                                   predict: Option<Matrix -> Option<seq<real>>>)

  datatype PredictError =
    | RequestsUnavailable  // the ImportError of `import requests`, not caught
    | NoPredictionSource   // "No API response and no local model available for prediction"
    | PreprocessorFailed   // "Preprocessor failed: ..."
    | ClassifierFailed     // "Classifier prediction failed: ..."

  /** `if api_url:`: None and the empty string are falsy. */
  predicate Truthy(apiUrl: Option<string>)
  {
    apiUrl.Some? && apiUrl.value != ""
  }

  /** Python's `float(...)` on a decoded JSON value; `parse` stands for `float` on a string. */
  function ToFloat(v: JsonValue, parse: string -> Option<real>): Option<real>
  {
    match v
    case JNumber(n) => Some(n)
    case JBool(b) => Some(if b then 1.0 else 0.0)
    case JText(s) => parse(s)
    case JNull => None
    case JArrayOrObject => None
  }

  /** With a URL set, a failing `import requests` escapes the function. */
  predicate ImportAborts(apiUrl: Option<string>, remote: RemoteOutcome)
  {
    Truthy(apiUrl) && remote.ImportFailed?
  }

  /** The score the remote attempt returns, or None when control falls through to the local path. */
  function RemoteScore(apiUrl: Option<string>, remote: RemoteOutcome, parse: string -> Option<real>): Option<real>
  {
    if !Truthy(apiUrl) then None
    else match remote
      case ImportFailed => None
      case Raised => None
      case Returned(NotAnObject) => None
      case Returned(JsonObject(fields)) =>
        if ScoreField in fields then ToFloat(fields[ScoreField], parse) else None
  }

  /** The columns of t, in order, except those named in `names`. */
  function Without(t: Table, names: set<string>): (r: Table)
    ensures |r| <= |t|
    ensures forall i :: 0 <= i < |r| ==> r[i] in t && r[i].name !in names
    ensures forall c :: c in t && c.name !in names ==> c in r
  {
    if t == [] then []
    else (if t[0].name in names then [] else [t[0]]) + Without(t[1..], names)
  }

  /** `X.drop(columns=[name])` when `name in X.columns`. */
  function DropColumn(t: Table, name: string): Table
  {
    Without(t, {name})
  }

  predicate HasColumn(t: Table, name: string)
  {
    exists i :: 0 <= i < |t| && t[i].name == name
  }

  /** `predict_proba(X)[0][1]`, else `predict(X)[0]`, else an error. */
  function Classify(c: Classifier, m: Matrix): Result<real, PredictError>
  {
    if c.predictProba.Some? then
      match c.predictProba.value(m)
      case Some(p) => if |p| > 0 && |p[0]| > 1 then Success(p[0][1]) else Failure(ClassifierFailed)
      case None => Failure(ClassifierFailed)
    else if c.predict.Some? then
      match c.predict.value(m)
      case Some(q) => if |q| > 0 then Success(q[0]) else Failure(ClassifierFailed)
      case None => Failure(ClassifierFailed)
    else Failure(ClassifierFailed)
  }

  /** The local path on the row stripped of its identifier and label columns. */
  function LocalPredict(x: Table, classifier: Option<Classifier>, preprocessor: Option<Preprocessor>)
    : Result<real, PredictError>
  {
    if classifier.None? || preprocessor.None? then Failure(NoPredictionSource)
    else match preprocessor.value.transform(Without(x, {IdColumn, LabelColumn}))
      case None => Failure(PreprocessorFailed)
      case Some(m) => Classify(classifier.value, m)
  }

  /** The probability `predict_with_api_or_local` returns, or the RuntimeError it raises. */
  function Predict(apiUrl: Option<string>, remote: RemoteOutcome, parse: string -> Option<real>,
                   x: Table, classifier: Option<Classifier>, preprocessor: Option<Preprocessor>)
    : Result<real, PredictError>
  {
    if ImportAborts(apiUrl, remote) then Failure(RequestsUnavailable)
    else match RemoteScore(apiUrl, remote, parse)
      case Some(score) => Success(score)
      case None => LocalPredict(x, classifier, preprocessor)
  }

  lemma {:induction false} WithoutTwice(t: Table, a: set<string>, b: set<string>)
    ensures Without(Without(t, a), b) == Without(t, a + b)
  {
    if t != [] {
      WithoutTwice(t[1..], a, b);
      var head := if t[0].name in a then [] else [t[0]];
      WithoutConcat(head, Without(t[1..], a), b);
    }
  }

  /** Filtering keeps the order: it distributes over concatenation. */
  lemma {:induction false} WithoutConcat(s: Table, t: Table, names: set<string>)
    ensures Without(s + t, names) == Without(s, names) + Without(t, names)
  {
    if s == [] {
      assert s + t == t;
    } else {
      assert (s + t)[1..] == s[1..] + t;
      WithoutConcat(s[1..], t, names);
    }
  }

  /** A table with none of the names is left exactly as it is, and only such a table is. */
  lemma {:induction false} WithoutUnchanged(t: Table, names: set<string>)
    ensures Without(t, names) == t <==> forall i :: 0 <= i < |t| ==> t[i].name !in names
  {
    if t != [] {
      WithoutUnchanged(t[1..], names);
      if t[0].name in names {
        assert |Without(t, names)| < |t|;
      }
    }
  }

  /** The names in a list of column names. */
  function Names(s: seq<string>): set<string>
  {
    if s == [] then {} else Names(s[..|s| - 1]) + {s[|s| - 1]}
  }

  /** The loop that drops SK_ID_CURR and then TARGET, each only when present. */
  method StripIdentifiers(xDf: Table) returns (x: Table)
    ensures x == Without(xDf, {IdColumn, LabelColumn})
  {
    x := xDf;
    WithoutUnchanged(xDf, {});
    for k := 0 to |Stripped|
      invariant x == Without(xDf, Names(Stripped[..k]))
    {
      DropStep(xDf, x, k);
      if HasColumn(x, Stripped[k]) {
        x := DropColumn(x, Stripped[k]);
      }
    }
    AllStripped();
  }

  /** One iteration: dropping the k-th name when present extends the set of names removed so far. */
  lemma DropStep(xDf: Table, x: Table, k: nat)
    requires k < |Stripped| && x == Without(xDf, Names(Stripped[..k]))
    ensures (if HasColumn(x, Stripped[k]) then DropColumn(x, Stripped[k]) else x)
            == Without(xDf, Names(Stripped[..k + 1]))
  {
    assert Stripped[..k + 1][..k] == Stripped[..k];
    WithoutTwice(xDf, Names(Stripped[..k]), {Stripped[k]});
    if !HasColumn(x, Stripped[k]) {
      WithoutUnchanged(x, {Stripped[k]});
    }
  }

  lemma AllStripped()
    ensures Names(Stripped[..|Stripped|]) == {IdColumn, LabelColumn}
  {
    var all := Stripped[..|Stripped|];
    assert all == [IdColumn, LabelColumn];
    assert all[..|all| - 1] == [IdColumn];
    assert [IdColumn][..0] == [];
    assert Names([IdColumn]) == {IdColumn};
  }

  method PredictWithApiOrLocal(apiUrl: Option<string>, remote: RemoteOutcome, parse: string -> Option<real>,
                               xDf: Table, classifier: Option<Classifier>, preprocessor: Option<Preprocessor>)
    returns (r: Result<real, PredictError>)
    ensures r == Predict(apiUrl, remote, parse, xDf, classifier, preprocessor)
  {
    if Truthy(apiUrl) && remote.ImportFailed? {
      return Failure(RequestsUnavailable);
    }
    if Truthy(apiUrl) && remote.Returned? && remote.content.JsonObject? && ScoreField in remote.content.fields {
      var score := ToFloat(remote.content.fields[ScoreField], parse);
      if score.Some? {
        return Success(score.value);
      }
    }
    if classifier.None? || preprocessor.None? {
      return Failure(NoPredictionSource);
    }
    var x := StripIdentifiers(xDf);
    var transformed := preprocessor.value.transform(x);
    if transformed.None? {
      return Failure(PreprocessorFailed);
    }
    var c := classifier.value;
    if c.predictProba.Some? {
      var proba := c.predictProba.value(transformed.value);
      if proba.Some? && |proba.value| > 0 && |proba.value[0]| > 1 {
        return Success(proba.value[0][1]);
      }
      return Failure(ClassifierFailed);
    } else if c.predict.Some? {
      var predicted := c.predict.value(transformed.value);
      if predicted.Some? && |predicted.value| > 0 {
        return Success(predicted.value[0]);
      }
      return Failure(ClassifierFailed);
    }
    return Failure(ClassifierFailed);
  }

  /**
   * A usable remote score is returned as it is, with no range check, and the
   * local classifier and preprocessor, present or not, are never consulted.
   */
  lemma RemoteScoreWins(apiUrl: Option<string>, fields: map<string, JsonValue>, parse: string -> Option<real>,
                        x1: Table, c1: Option<Classifier>, p1: Option<Preprocessor>,
                        x2: Table, c2: Option<Classifier>, p2: Option<Preprocessor>)
    requires Truthy(apiUrl) && ScoreField in fields && ToFloat(fields[ScoreField], parse).Some?
    ensures Predict(apiUrl, Returned(JsonObject(fields)), parse, x1, c1, p1)
            == Predict(apiUrl, Returned(JsonObject(fields)), parse, x2, c2, p2)
            == Success(ToFloat(fields[ScoreField], parse).value)
  {
  }

  /** Any real at all, in [0, 1] or not, comes back unchanged from the service. */
  lemma NoRangeCheck(score: real, parse: string -> Option<real>, x: Table)
    ensures Predict(Some("http://scoring"), Returned(JsonObject(map[ScoreField := JNumber(score)])), parse, x, None, None)
            == Success(score)
  {
  }

  /**
   * No URL, an exception, a body that is not a dict, a dict without the
   * score, or a score float() rejects: each reaches the local path.
   */
  lemma FallsThroughToLocal(apiUrl: Option<string>, remote: RemoteOutcome, parse: string -> Option<real>,
                            x: Table, c: Option<Classifier>, p: Option<Preprocessor>)
    requires || !Truthy(apiUrl)
             || remote == Raised
             || remote == Returned(NotAnObject)
             || (remote.Returned? && remote.content.JsonObject? && ScoreField !in remote.content.fields)
             || (remote.Returned? && remote.content.JsonObject? && ScoreField in remote.content.fields
                 && ToFloat(remote.content.fields[ScoreField], parse).None?)
    ensures Predict(apiUrl, remote, parse, x, c, p) == LocalPredict(x, c, p)
  {
  }

  /**
   * A probability comes from a source: the service's score, or the
   * classifier's output on the preprocessed, stripped row. Without both local
   * parts, a failed remote attempt raises instead of returning a default.
   */
  lemma SuccessHasASource(apiUrl: Option<string>, remote: RemoteOutcome, parse: string -> Option<real>,
                          x: Table, c: Option<Classifier>, p: Option<Preprocessor>, score: real)
    requires Predict(apiUrl, remote, parse, x, c, p) == Success(score)
    ensures || RemoteScore(apiUrl, remote, parse) == Some(score)
            || (&& c.Some? && p.Some?
                && p.value.transform(Without(x, {IdColumn, LabelColumn})).Some?
                && Classify(c.value, p.value.transform(Without(x, {IdColumn, LabelColumn})).value) == Success(score))
  {
  }

  lemma NoLocalModelIsFatal(apiUrl: Option<string>, remote: RemoteOutcome, parse: string -> Option<real>,
                            x: Table, c: Option<Classifier>, p: Option<Preprocessor>)
    requires !ImportAborts(apiUrl, remote) && RemoteScore(apiUrl, remote, parse).None?
    requires c.None? || p.None?
    ensures Predict(apiUrl, remote, parse, x, c, p) == Failure(NoPredictionSource)
  {
  }

  /**
   * A failing `import requests` with a URL set raises even when a classifier
   * and a preprocessor are available: the fallback is never reached.
   */
  lemma ImportFailureIsNotCaught(apiUrl: Option<string>, parse: string -> Option<real>,
                                 x: Table, c: Option<Classifier>, p: Option<Preprocessor>)
    requires Truthy(apiUrl)
    ensures Predict(apiUrl, ImportFailed, parse, x, c, p) == Failure(RequestsUnavailable)
    ensures Predict(apiUrl, ImportFailed, parse, x, c, p) != LocalPredict(x, c, p)
  {
  }

  /**
   * The preprocessor sees the row without SK_ID_CURR and TARGET and with its
   * other columns in their order, so the local result does not depend on the
   * identifier and label columns at all.
   */
  lemma {:induction false} StrippedRowOnly(x: Table, c: Option<Classifier>, p: Option<Preprocessor>,
                                           idAndLabel: Table)
    requires forall i :: 0 <= i < |idAndLabel| ==> idAndLabel[i].name in {IdColumn, LabelColumn}
    ensures forall i :: 0 <= i < |Without(x, {IdColumn, LabelColumn})| ==>
              Without(x, {IdColumn, LabelColumn})[i].name != IdColumn
              && Without(x, {IdColumn, LabelColumn})[i].name != LabelColumn
    ensures LocalPredict(idAndLabel + x, c, p) == LocalPredict(x, c, p)
    ensures LocalPredict(x + idAndLabel, c, p) == LocalPredict(x, c, p)
  {
    var names := {IdColumn, LabelColumn};
    StrippedAll(idAndLabel, names);
    WithoutConcat(idAndLabel, x, names);
    WithoutConcat(x, idAndLabel, names);
    assert [] + Without(x, names) == Without(x, names);
    assert Without(x, names) + [] == Without(x, names);
  }

  lemma {:induction false} StrippedAll(t: Table, names: set<string>)
    requires forall i :: 0 <= i < |t| ==> t[i].name in names
    ensures Without(t, names) == []
  {
    if t != [] {
      StrippedAll(t[1..], names);
    }
  }

  /**
   * `predict_proba` is preferred when present, whatever `predict` does;
   * `predict` is used only without it; a classifier with neither fails.
   */
  lemma ClassifierPreference(c: Classifier, m: Matrix)
    ensures c.predictProba.Some? ==> Classify(c, m) == Classify(Classifier(c.predictProba, None), m)
    ensures c.predictProba.Some? && c.predictProba.value(m).Some? && |c.predictProba.value(m).value| > 0
            && |c.predictProba.value(m).value[0]| > 1
            ==> Classify(c, m) == Success(c.predictProba.value(m).value[0][1])
    ensures c.predictProba.None? && c.predict.Some? && c.predict.value(m).Some? && |c.predict.value(m).value| > 0
            ==> Classify(c, m) == Success(c.predict.value(m).value[0])
    ensures c.predictProba.None? && c.predict.None? ==> Classify(c, m) == Failure(ClassifierFailed)
  {
  }

  /** A failing preprocessor and a failing classifier each surface as their own error. */
  lemma LocalFailures(x: Table, c: Classifier, p: Preprocessor)
    ensures p.transform(Without(x, {IdColumn, LabelColumn})).None?
            ==> LocalPredict(x, Some(c), Some(p)) == Failure(PreprocessorFailed)
    ensures p.transform(Without(x, {IdColumn, LabelColumn})).Some?
            && Classify(c, p.transform(Without(x, {IdColumn, LabelColumn})).value).Failure?
            ==> LocalPredict(x, Some(c), Some(p)) == Failure(ClassifierFailed)
  {
  }
}
