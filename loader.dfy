/**
 * `read_pickle` and `load_shap_explainer` of utils.py. The filesystem is the
 * set of paths that exist; each deserialiser (dill, pickle, joblib) is a given
 * function from a path to what loading that file gives, and the explainer
 * rebuilt from the classifier is a given outcome.
 */
module Loader {
  import opened Wrappers

  /** The extensions probed, in order, when the given path does not exist. */
  const Extensions: seq<string> := [".pkl", ".pickle", ".joblib"]

  /** What one deserialiser gives: the object, or the message of the exception it raised. */
  datatype Attempt<T> = Loaded(obj: T) | Raised(message: string)

  datatype Backend = Dill | Pickle | Joblib

  /** One entry of the `errors` list, `f"dill: {e}"` and the like. */
  datatype BackendError = BackendError(backend: Backend, message: string)

  datatype LoadError =
    | NotFound(path: string)                                   // FileNotFoundError
    | LoadFailed(resolved: string, errors: seq<BackendError>)  // RuntimeError

  datatype Backends<T> = Backends(dill: string -> Attempt<T>, pickle: string -> Attempt<T>, joblib: string -> Attempt<T>)

  datatype Loader<T> = Loader(backend: Backend, load: string -> Attempt<T>)

  /** dill, then pickle, then joblib. */
  function InOrder<T>(b: Backends<T>): (r: seq<Loader<T>>)
    ensures |r| == 3
    ensures r[0] == Loader(Dill, b.dill) && r[1] == Loader(Pickle, b.pickle) && r[2] == Loader(Joblib, b.joblib)
  {
    [Loader(Dill, b.dill), Loader(Pickle, b.pickle), Loader(Joblib, b.joblib)]
  }

  /** The first of path+ext, for ext in exts, that exists. */
  function FirstExisting(fs: set<string>, path: string, exts: seq<string>): (r: Option<string>)
    ensures r.None? <==> forall k :: 0 <= k < |exts| ==> path + exts[k] !in fs
    ensures r.Some? ==> exists k :: 0 <= k < |exts| && r.value == path + exts[k] && r.value in fs
                                    && forall j :: 0 <= j < k ==> path + exts[j] !in fs
  {
    if exts == [] then None
    else if path + exts[0] in fs then Some(path + exts[0])
    else
      var r := FirstExisting(fs, path, exts[1..]);
      assert r.Some? ==> exists k :: 1 <= k < |exts| && r.value == path + exts[k] && r.value in fs
                                     && forall j :: 0 <= j < k ==> path + exts[j] !in fs by {
        if r.Some? {
          var k :| 0 <= k < |exts| - 1 && r.value == path + exts[1..][k] && r.value in fs
                   && forall j :: 0 <= j < k ==> path + exts[1..][j] !in fs;
          assert forall j :: 1 <= j < k + 1 ==> path + exts[j] == path + exts[1..][j - 1];
        }
      }
      r
  }

  /** The file `read_pickle` opens: the path itself when it exists, else the first existing extension. */
  function Resolve(fs: set<string>, path: string): Option<string>
  {
    if path in fs then Some(path) else FirstExisting(fs, path, Extensions)
  }

  /** Try each deserialiser in turn; the first object loaded wins, otherwise every error in order. */
  function TryInOrder<T>(loaders: seq<Loader<T>>, p: string): (r: Result<T, seq<BackendError>>)
    ensures r.Failure? <==> forall i :: 0 <= i < |loaders| ==> loaders[i].load(p).Raised?
    ensures r.Success? ==> exists i :: 0 <= i < |loaders| && loaders[i].load(p) == Loaded(r.value)
                                       && forall j :: 0 <= j < i ==> loaders[j].load(p).Raised?
    ensures r.Failure? ==> |r.error| == |loaders|
                           && forall i :: 0 <= i < |loaders| ==>
                                r.error[i] == BackendError(loaders[i].backend, loaders[i].load(p).message)
  {
    if loaders == [] then Failure([])
    else match loaders[0].load(p)
      case Loaded(x) => Success(x)
      case Raised(m) =>
        var rest := TryInOrder(loaders[1..], p);
        if rest.Success? then
          assert exists i :: 1 <= i < |loaders| && loaders[i].load(p) == Loaded(rest.value)
                             && forall j :: 0 <= j < i ==> loaders[j].load(p).Raised? by {
            var i :| 0 <= i < |loaders| - 1 && loaders[1..][i].load(p) == Loaded(rest.value)
                     && forall j :: 0 <= j < i ==> loaders[1..][j].load(p).Raised?;
            assert forall j :: 1 <= j < i + 1 ==> loaders[j] == loaders[1..][j - 1];
          }
          rest
        else
          Failure([BackendError(loaders[0].backend, m)] + rest.error)
  }

  /** What `read_pickle(path)` returns or raises. */
  function Load<T>(fs: set<string>, path: string, b: Backends<T>): Result<T, LoadError>
  {
    match Resolve(fs, path)
    case None => Failure(NotFound(path))
    case Some(p) =>
      match TryInOrder(InOrder(b), p)
      case Success(x) => Success(x)
      case Failure(errors) => Failure(LoadFailed(p, errors))
  }

  /** One more deserialiser tried before the rest. */
  lemma TryCons<T>(first: Loader<T>, rest: seq<Loader<T>>, p: string)
    ensures TryInOrder([first] + rest, p) ==
      match first.load(p)
      case Loaded(x) => Success(x)
      case Raised(m) =>
        var r := TryInOrder(rest, p);
        if r.Success? then r else Failure([BackendError(first.backend, m)] + r.error)
  {
    assert ([first] + rest)[0] == first;
    assert ([first] + rest)[1..] == rest;
  }

  /** The three tries written out. */
  lemma TryThree<T>(b: Backends<T>, p: string)
    ensures TryInOrder(InOrder(b), p) ==
      if b.dill(p).Loaded? then Success(b.dill(p).obj)
      else if b.pickle(p).Loaded? then Success(b.pickle(p).obj)
      else if b.joblib(p).Loaded? then Success(b.joblib(p).obj)
      else Failure([BackendError(Dill, b.dill(p).message), BackendError(Pickle, b.pickle(p).message),
                    BackendError(Joblib, b.joblib(p).message)])
  {
    var d, k, j := Loader(Dill, b.dill), Loader(Pickle, b.pickle), Loader(Joblib, b.joblib);
    assert TryInOrder<T>([], p) == Failure([]);
    TryCons(j, [], p);
    assert [j] + [] == [j];
    TryCons(k, [j], p);
    assert [k] + [j] == [k, j];
    TryCons(d, [k, j], p);
    assert [d] + [k, j] == InOrder(b);
    if b.dill(p).Raised? && b.pickle(p).Raised? && b.joblib(p).Raised? {
      var ed, ek, ej := BackendError(Dill, b.dill(p).message), BackendError(Pickle, b.pickle(p).message),
                        BackendError(Joblib, b.joblib(p).message);
      assert TryInOrder([j], p) == Failure([ej]) by { assert [ej] + [] == [ej]; }
      assert TryInOrder([k, j], p) == Failure([ek, ej]) by { assert [ek] + [ej] == [ek, ej]; }
      assert TryInOrder([d, k, j], p) == Failure([ed, ek, ej]) by { assert [ed] + [ek, ej] == [ed, ek, ej]; }
    }
  }

  method ReadPickle<T>(fs: set<string>, path: string, b: Backends<T>) returns (r: Result<T, LoadError>)
    ensures r == Load(fs, path, b)
  {
    var resolved := path;
    if resolved !in fs {
      var i := 0;
      while i < |Extensions|
        invariant 0 <= i <= |Extensions|
        invariant resolved == path
        invariant forall j :: 0 <= j < i ==> path + Extensions[j] !in fs
        invariant FirstExisting(fs, path, Extensions) == FirstExisting(fs, path, Extensions[i..])
      {
        assert Extensions[i..][1..] == Extensions[i + 1..];
        var candidate := path + Extensions[i];
        if candidate in fs {
          resolved := candidate;
          break;
        }
        i := i + 1;
      }
      assert Extensions[|Extensions|..] == [];
    }
    assert resolved in fs ==> Resolve(fs, path) == Some(resolved);
    assert resolved !in fs ==> Resolve(fs, path).None?;
    if resolved !in fs {
      return Failure(NotFound(path));
    }
    TryThree(b, resolved);
    var errors: seq<BackendError> := [];
    var attempt := b.dill(resolved);
    if attempt.Loaded? { return Success(attempt.obj); }
    errors := errors + [BackendError(Dill, attempt.message)];
    attempt := b.pickle(resolved);
    if attempt.Loaded? { return Success(attempt.obj); }
    errors := errors + [BackendError(Pickle, attempt.message)];
    attempt := b.joblib(resolved);
    if attempt.Loaded? { return Success(attempt.obj); }
    errors := errors + [BackendError(Joblib, attempt.message)];
    assert errors == [BackendError(Dill, b.dill(resolved).message), BackendError(Pickle, b.pickle(resolved).message),
                      BackendError(Joblib, b.joblib(resolved).message)];
    r := Failure(LoadFailed(resolved, errors));
  }

  /** An existing path is opened as given; no extension is tried. */
  lemma ExactPathWins(fs: set<string>, path: string)
    requires path in fs
    ensures Resolve(fs, path) == Some(path)
  {
  }

  /**
   * A missing path resolves to path+".pkl", else path+".pickle", else
   * path+".joblib", the first that exists.
   */
  lemma ExtensionOrder(fs: set<string>, path: string)
    requires path !in fs
    ensures path + ".pkl" in fs ==> Resolve(fs, path) == Some(path + ".pkl")
    ensures path + ".pkl" !in fs && path + ".pickle" in fs ==> Resolve(fs, path) == Some(path + ".pickle")
    ensures path + ".pkl" !in fs && path + ".pickle" !in fs && path + ".joblib" in fs
            ==> Resolve(fs, path) == Some(path + ".joblib")
    ensures Resolve(fs, path).None? <==> path + ".pkl" !in fs && path + ".pickle" !in fs && path + ".joblib" !in fs
  {
    var e := Extensions;
    assert e[1..] == [".pickle", ".joblib"];
    assert e[1..][1..] == [".joblib"];
    assert e[1..][1..][1..] == [];
    assert FirstExisting(fs, path, e[1..][1..]) ==
      if path + ".joblib" in fs then Some(path + ".joblib") else FirstExisting(fs, path, e[1..][1..][1..]);
    assert FirstExisting(fs, path, e[1..]) ==
      if path + ".pickle" in fs then Some(path + ".pickle") else FirstExisting(fs, path, e[1..][1..]);
  }

  /** When nothing exists, FileNotFoundError is raised whatever the deserialisers would have done. */
  lemma MissingFailsBeforeLoading<T>(fs: set<string>, path: string, b1: Backends<T>, b2: Backends<T>)
    requires Resolve(fs, path).None?
    ensures Load(fs, path, b1) == Load(fs, path, b2) == Failure(NotFound(path))
  {
  }

  /**
   * Once a file is found, dill's object is returned if it loads, else pickle's,
   * else joblib's; when all three raise, the error lists exactly their three
   * messages, dill's first.
   */
  lemma BackendOrder<T>(fs: set<string>, path: string, b: Backends<T>)
    requires Resolve(fs, path).Some?
    ensures var p := Resolve(fs, path).value;
      && (b.dill(p).Loaded? ==> Load(fs, path, b) == Success(b.dill(p).obj))
      && (b.dill(p).Raised? && b.pickle(p).Loaded? ==> Load(fs, path, b) == Success(b.pickle(p).obj))
      && (b.dill(p).Raised? && b.pickle(p).Raised? && b.joblib(p).Loaded? ==> Load(fs, path, b) == Success(b.joblib(p).obj))
      && (b.dill(p).Raised? && b.pickle(p).Raised? && b.joblib(p).Raised? ==>
            Load(fs, path, b) == Failure(LoadFailed(p, [BackendError(Dill, b.dill(p).message),
                                                        BackendError(Pickle, b.pickle(p).message),
                                                        BackendError(Joblib, b.joblib(p).message)])))
  {
    TryThree(b, Resolve(fs, path).value);
  }

  function EndsWith(s: string, suffix: string): bool
  {
    |suffix| <= |s| && s[|s| - |suffix|..] == suffix
  }

  /** `path.endswith(('.pkl', '.pickle', '.joblib'))`. */
  predicate HasArtifactExtension(path: string)
  {
    exists k :: 0 <= k < |Extensions| && EndsWith(path, Extensions[k])
  }

  /** Where a rebuilt explainer is written. */
  function OutPath(fs: set<string>, path: string): (r: string)
    ensures r == path + ".pkl" <==> path !in fs && !HasArtifactExtension(path)
    ensures r != path + ".pkl" ==> r == path
  {
    assert |path + ".pkl"| != |path|;
    if path !in fs && !HasArtifactExtension(path) then path + ".pkl" else path
  }

  /** `shap.TreeExplainer(classifier)`: the explainer, or the message of what it raised. */
  datatype Rebuild<T> = Rebuilt(explainer: T) | RebuildRaised(message: string)

  datatype ExplainerError = LoadAndRebuildFailed(loadError: LoadError, rebuildError: string)

  /** The result, with the set of files that exist afterwards. */
  datatype ExplainerLoad<T> = ExplainerLoad(result: Result<T, ExplainerError>, files: set<string>)

  /** What `load_shap_explainer` returns or raises, and the file it may leave behind. */
  function LoadShapExplainer<T>(fs: set<string>, path: string, b: Backends<T>, rebuild: Rebuild<T>,
                                saveRebuilt: bool, saveSucceeds: bool): ExplainerLoad<T>
  {
    match Load(fs, path, b)
    case Success(x) => ExplainerLoad(Success(x), fs)
    case Failure(e) =>
      match rebuild
      case RebuildRaised(m) => ExplainerLoad(Failure(LoadAndRebuildFailed(e, m)), fs)
      case Rebuilt(x) =>
        ExplainerLoad(Success(x), if saveRebuilt && saveSucceeds then fs + {OutPath(fs, path)} else fs)
  }

  /** A loaded explainer is returned as loaded: nothing is rebuilt or written. */
  lemma LoadedIsNotRebuilt<T>(fs: set<string>, path: string, b: Backends<T>, rebuild: Rebuild<T>,
                              saveRebuilt: bool, saveSucceeds: bool)
    requires Load(fs, path, b).Success?
    ensures LoadShapExplainer(fs, path, b, rebuild, saveRebuilt, saveSucceeds)
            == ExplainerLoad(Success(Load(fs, path, b).value), fs)
  {
  }

  /**
   * Any load failure, a missing file or three failed deserialisers, falls back
   * to the rebuilt explainer; an error is raised only when the rebuild raises,
   * and a failed save changes nothing but the file left behind.
   */
  lemma RebuildFallback<T>(fs: set<string>, path: string, b: Backends<T>, rebuild: Rebuild<T>,
                           saveRebuilt: bool, saveSucceeds: bool)
    ensures var out := LoadShapExplainer(fs, path, b, rebuild, saveRebuilt, saveSucceeds);
      && (out.result.Failure? <==> Load(fs, path, b).Failure? && rebuild.RebuildRaised?)
      && (Load(fs, path, b).Failure? && rebuild.Rebuilt? ==> out.result == Success(rebuild.explainer))
      && out.result == LoadShapExplainer(fs, path, b, rebuild, saveRebuilt, !saveSucceeds).result
      && (Load(fs, path, b).Failure? && rebuild.Rebuilt? && saveRebuilt && saveSucceeds
          ==> out.files == fs + {OutPath(fs, path)})
      && out.files <= fs + {OutPath(fs, path)}
      && (!saveRebuilt ==> out.files == fs)
  {
  }

  /** Saving names path+".pkl" exactly when the path does not exist and has none of the three extensions. */
  lemma SaveTarget(fs: set<string>, path: string)
    ensures OutPath(fs, path) == (if path !in fs && !HasArtifactExtension(path) then path + ".pkl" else path)
    ensures path in fs ==> OutPath(fs, path) == path
    ensures EndsWith(path, ".pkl") || EndsWith(path, ".pickle") || EndsWith(path, ".joblib") ==> OutPath(fs, path) == path
  {
    if EndsWith(path, ".pkl") { assert EndsWith(path, Extensions[0]); }
    if EndsWith(path, ".pickle") { assert EndsWith(path, Extensions[1]); }
    if EndsWith(path, ".joblib") { assert EndsWith(path, Extensions[2]); }
  }
}
