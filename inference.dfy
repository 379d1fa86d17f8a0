/** The inference pipeline of src/inference.py: look a classifier up by
    name, align the input batch with the training-time feature order, run
    the classifier and assemble one prediction entry per row.

    The fitted scaler and classifiers are opaque artifacts; they enter the
    model as functions: the scaler as `Matrix -> Matrix`, a classifier as a
    label function plus, for the classifiers that have `predict_proba`, a
    probability function. */
module Inference {
  import opened Wrappers
  import opened Text
  import opened Schemas

  /** A feature matrix: one row per sample. */
  type Matrix = seq<seq<real>>

  /** A fitted classifier. Having `predict_proba` is a property of the
      classifier, decided by its variant. Labels are numbers, as in the
      arrays the classifiers return. */
  datatype Classifier =
    | LabelsOnly(predict: Matrix -> seq<real>)
    | WithProbabilities(predict: Matrix -> seq<real>, predictProba: Matrix -> Matrix)

  /** The four classifiers loaded at startup. */
  datatype Registry = Registry(logistic: Classifier, knn: Classifier, randomForest: Classifier, svm: Classifier)

  /** The exceptions the pipeline can raise. `KeyError` carries the
      requested column names that the frame lacks. */
  datatype Error =
    | ValueError(message: string)
    | KeyError(missing: seq<string>)
    | NameError(name: string)
    | IndexError(index: nat)

  /** One entry of the response: the row's position in the batch, its class
      and, for classifiers with `predict_proba`, its probability vector. */
  datatype Prediction = Prediction(inputIndex: nat, predictedClass: int, probabilities: Option<seq<real>>)

  // ---------------------------------------------------------------------
  // Model lookup
  // ---------------------------------------------------------------------

  /** The registry keys, in the order the map lists them. */
  const ModelNames: seq<string> := ["logistic", "knn", "random_forest", "svm"]

  /** `MODELS`: each registry key mapped to its classifier. */
  function Models(reg: Registry): (m: map<string, Classifier>)
    ensures forall k :: k in m <==> k in ModelNames
    ensures m[ModelNames[0]] == reg.logistic && m[ModelNames[1]] == reg.knn
    ensures m[ModelNames[2]] == reg.randomForest && m[ModelNames[3]] == reg.svm
  {
    map[
      ModelNames[0] := reg.logistic,
      ModelNames[1] := reg.knn,
      ModelNames[2] := reg.randomForest,
      ModelNames[3] := reg.svm
    ]
  }

  /** `MODELS.get(model_name.lower())`: a classifier is found exactly when
      the lower-cased name is a registry key. */
  function Lookup(reg: Registry, name: string): (m: Option<Classifier>)
    ensures m.Some? <==> Lower(name) in ModelNames
  {
    var key := Lower(name);
    if key in Models(reg) then Some(Models(reg)[key]) else None
  }

  /** The classifier found is the one loaded under the lower-cased name. */
  lemma LookupFindsLoadedClassifier(reg: Registry, name: string)
    ensures Lower(name) == "logistic" ==> Lookup(reg, name) == Some(reg.logistic)
    ensures Lower(name) == "knn" ==> Lookup(reg, name) == Some(reg.knn)
    ensures Lower(name) == "random_forest" ==> Lookup(reg, name) == Some(reg.randomForest)
    ensures Lower(name) == "svm" ==> Lookup(reg, name) == Some(reg.svm)
  {
  }

  /** The registry keys are distinct and already lower case, so each of
      them is reachable through the lower-casing lookup. */
  lemma RegistryKeysLowerCase()
    ensures forall i :: 0 <= i < |ModelNames| ==> IsLowerCase(ModelNames[i])
    ensures forall i :: 0 <= i < |ModelNames| ==> Lower(ModelNames[i]) == ModelNames[i]
    ensures forall i, j :: 0 <= i < j < |ModelNames| ==> ModelNames[i] != ModelNames[j]
  {
    forall i | 0 <= i < |ModelNames|
      ensures Lower(ModelNames[i]) == ModelNames[i]
    {
      LowerOfLowerCase(ModelNames[i]);
    }
  }

  /** The lookup depends on the name only through its lower-cased form:
      any spelling finds what its lower-case spelling finds. */
  lemma LookupIgnoresCase(reg: Registry, name: string)
    ensures Lookup(reg, name) == Lookup(reg, Lower(name))
  {
    LowerIdempotent(name);
  }

  /** `"LOGISTIC"`, `"Logistic"` and `"logistic"` all find the logistic
      classifier; `"nonexistent"` finds nothing. */
  lemma LookupExamples(reg: Registry)
    ensures Lookup(reg, "LOGISTIC") == Some(reg.logistic)
    ensures Lookup(reg, "Logistic") == Some(reg.logistic)
    ensures Lookup(reg, "logistic") == Some(reg.logistic)
    ensures Lookup(reg, "nonexistent") == None
  {
    LookupFindsLoadedClassifier(reg, "LOGISTIC");
    LookupFindsLoadedClassifier(reg, "Logistic");
    LookupFindsLoadedClassifier(reg, "logistic");
    assert Lower("LOGISTIC") == "logistic";
    assert Lower("Logistic") == "logistic";
    assert Lower("logistic") == "logistic";
    assert Lower("nonexistent") == "nonexistent";
  }

  /** The text of the `ValueError` raised for an unknown name: it opens
      with the name exactly as requested, in quotes, and closes with the
      list of registry keys. */
  function NotFoundMessage(name: string): (msg: string)
    ensures StartsWith(msg, "Model '") && |msg| > 7 + |name| && msg[7..7 + |name|] == name
    ensures |ListRepr(ModelNames)| <= |msg| && msg[|msg| - |ListRepr(ModelNames)|..] == ListRepr(ModelNames)
  {
    ConcatParts("Model '", name, "' not found. Available models: ", ListRepr(ModelNames));
    "Model '" + name + "' not found. Available models: " + ListRepr(ModelNames)
  }

  /** The message quotes the name as requested and lists the four registry
      keys, each in quotes, in registry order. */
  lemma NotFoundMessageText(name: string)
    ensures NotFoundMessage(name) ==
      "Model '" + name + "' not found. Available models: ["
      + Quote("logistic") + ", " + Quote("knn") + ", " + Quote("random_forest") + ", " + Quote("svm") + "]"
  {
    QuotedFour(ModelNames[0], ModelNames[1], ModelNames[2], ModelNames[3]);
    assert ModelNames == [ModelNames[0], ModelNames[1], ModelNames[2], ModelNames[3]];
  }

  // ---------------------------------------------------------------------
  // Feature alignment
  // ---------------------------------------------------------------------

  /** `FEATURES`: the training-time column names, in training order. The
      two concave-points names are spelled with a space. */
  const Features: seq<string> := [
    "perimeter_mean",
    "area_mean",
    "concavity_mean",
    "concave points_mean",
    "radius_worst",
    "texture_worst",
    "perimeter_worst",
    "area_worst",
    "concave points_worst",
    "radius_texture_interaction"
  ]

  /** Ten distinct names; exactly those at positions 3 and 8 hold a space. */
  lemma FeaturesShape()
    ensures |Features| == 10
    ensures forall i, j :: 0 <= i < j < |Features| ==> Features[i] != Features[j]
    ensures forall i :: 0 <= i < |Features| ==> (' ' in Features[i] <==> i == 3 || i == 8)
  {
  }

  const UnderscorePrefix: string := "concave_points"
  const SpacePrefix: string := "concave points"

  /** The intended column rename: a name starting with `concave_points`
      gets that prefix respelled `concave points`; every other name is
      kept. The rename changes at most the character at position 7 (the
      underscore after `concave`), and changes it exactly for the names
      with that prefix. */
  function RenameKey(k: string): (r: string)
    ensures |r| == |k|
    ensures forall i :: 0 <= i < |k| && i != 7 ==> r[i] == k[i]
    ensures r != k <==> StartsWith(k, UnderscorePrefix)
    ensures StartsWith(k, UnderscorePrefix) ==> StartsWith(r, SpacePrefix)
  {
    if StartsWith(k, UnderscorePrefix) then
      var r := SpacePrefix + k[|UnderscorePrefix|..];
      assert forall i :: 0 <= i < |UnderscorePrefix| && i != 7 ==> SpacePrefix[i] == UnderscorePrefix[i];
      assert r[7] != k[7];
      assert r[..|SpacePrefix|] == SpacePrefix;
      r
    else
      k
  }

  /** Renaming twice is renaming once: space-spelled names are left alone. */
  lemma RenameIdempotent(k: string)
    ensures RenameKey(RenameKey(k)) == RenameKey(k)
  {
    if StartsWith(k, UnderscorePrefix) {
      var r := RenameKey(k);
      assert r[7] == ' ' && UnderscorePrefix[7] == '_';
      assert !StartsWith(r, UnderscorePrefix);
    }
  }

  /** Renamed position by position, the declared field names are exactly
      the training names, and only the two concave-points names change. */
  lemma RenameMatchesTraining()
    ensures forall j :: 0 <= j < |FieldNames| ==> RenameKey(FieldNames[j]) == Features[j]
    ensures forall j :: 0 <= j < |FieldNames| ==> (RenameKey(FieldNames[j]) != FieldNames[j] <==> j == 3 || j == 8)
  {
    assert FieldNames[0][0] != UnderscorePrefix[0];
    assert FieldNames[2][6] != UnderscorePrefix[6];
    assert FieldNames[6][0] != UnderscorePrefix[0];
    assert FieldNames[9][0] != UnderscorePrefix[0];
    assert StartsWith(FieldNames[3], UnderscorePrefix);
    assert StartsWith(FieldNames[8], UnderscorePrefix);
  }

  /** A pandas data frame: column labels and row-major cells. */
  datatype Frame = Frame(columns: seq<string>, rows: Matrix)

  /** Every row has one cell per column. */
  predicate Rectangular(f: Frame) {
    forall i :: 0 <= i < |f.rows| ==> |f.rows[i]| == |f.columns|
  }

  /** The fields of each record in declaration order, one row per record. */
  function RowsOf(records: seq<FeatureRecord>): (x: Matrix)
    ensures |x| == |records|
    ensures forall i :: 0 <= i < |records| ==> x[i] == Values(records[i])
  {
    seq(|records|, i requires 0 <= i < |records| => Values(records[i]))
  }

  /** `pd.DataFrame([item.dict() for item in inputs])`: the columns are the
      keys of the records' maps in first-seen order, and cell (i, j) is
      record i's value under column j. An empty list gives a frame with no
      columns at all. */
  function FrameOf(records: seq<FeatureRecord>): (f: Frame)
    ensures Rectangular(f) && |f.rows| == |records|
    ensures records == [] ==> f.columns == []
    ensures records != [] ==> f.columns == FieldNames
    ensures forall i, j :: 0 <= i < |records| && 0 <= j < |f.columns| ==>
      f.columns[j] in ToDict(records[i]) && f.rows[i][j] == ToDict(records[i])[f.columns[j]]
  {
    if records == [] then Frame([], []) else Frame(FieldNames, RowsOf(records))
  }

  /** The intended effect of the rename line: the cells are untouched,
      exactly the labels starting with `concave_points` change, each to a
      label starting with `concave points`, and the declared field names
      become the training names. */
  function Renamed(f: Frame): (g: Frame)
    ensures g.rows == f.rows && |g.columns| == |f.columns|
    ensures forall j :: 0 <= j < |f.columns| ==>
      (g.columns[j] != f.columns[j] <==> StartsWith(f.columns[j], UnderscorePrefix))
    ensures forall j :: 0 <= j < |f.columns| && StartsWith(f.columns[j], UnderscorePrefix) ==>
      StartsWith(g.columns[j], SpacePrefix)
    ensures f.columns == FieldNames ==> g.columns == Features
  {
    RenameMatchesTraining();
    Frame(seq(|f.columns|, j requires 0 <= j < |f.columns| => RenameKey(f.columns[j])), f.rows)
  }

  /** The position of the first column labelled `name`. */
  function IndexOf(columns: seq<string>, name: string): (j: nat)
    requires name in columns
    ensures j < |columns| && columns[j] == name
    ensures forall k :: 0 <= k < j ==> columns[k] != name
  {
    if columns[0] == name then 0 else 1 + IndexOf(columns[1..], name)
  }

  /** `df[names]`: the frame restricted to the requested columns, in the
      requested order. It fails with `KeyError` naming every requested
      column the frame lacks, and succeeds exactly when there is none. */
  function Project(f: Frame, names: seq<string>): (r: Result<Matrix, Error>)
    requires Rectangular(f)
    ensures r.Ok? <==> forall j :: 0 <= j < |names| ==> names[j] in f.columns
    ensures r.Err? ==> r.error.KeyError? && r.error.missing != []
    ensures r.Err? ==> forall k :: k in r.error.missing <==> k in names && k !in f.columns
    ensures r.Ok? ==> |r.value| == |f.rows|
    ensures r.Ok? ==> forall i :: 0 <= i < |f.rows| ==> |r.value[i]| == |names|
    ensures r.Ok? ==> forall i, j :: 0 <= i < |f.rows| && 0 <= j < |names| ==>
      r.value[i][j] == f.rows[i][IndexOf(f.columns, names[j])]
  {
    var present := set c | c in f.columns;
    var missing := Absent(names, present);
    if missing != [] then
      assert missing[0] in names;
      Err(KeyError(missing))
    else
      assert forall j :: 0 <= j < |names| ==> names[j] in present;
      Ok(seq(|f.rows|, i requires 0 <= i < |f.rows| =>
        seq(|names|, j requires 0 <= j < |names| => f.rows[i][IndexOf(f.columns, names[j])])))
  }

  /** No name is found among no keys. */
  lemma {:induction false} AbsentFromNothing(names: seq<string>)
    ensures Absent(names, {}) == names
    decreases |names|
  {
    if names != [] {
      AbsentFromNothing(names[1..]);
    }
  }

  /** In a list of distinct names, each name is found at its own position. */
  lemma IndexOfDistinct(columns: seq<string>, j: nat)
    requires j < |columns|
    requires forall a, b :: 0 <= a < b < |columns| ==> columns[a] != columns[b]
    ensures IndexOf(columns, columns[j]) == j
  {
  }

  /** After the rename, the frame of a non-empty batch has exactly the
      training columns, in training order. */
  lemma RenamedColumns(records: seq<FeatureRecord>)
    requires records != []
    ensures Renamed(FrameOf(records)).columns == Features
  {
    RenameMatchesTraining();
  }

  /** A frame with distinct column labels, projected onto its own labels
      in their own order, gives back its rows. */
  lemma ProjectOntoOwnColumns(f: Frame)
    requires Rectangular(f)
    requires forall a, b :: 0 <= a < b < |f.columns| ==> f.columns[a] != f.columns[b]
    ensures Project(f, f.columns) == Ok(f.rows)
  {
    var r := Project(f, f.columns);
    assert r.Ok?;
    forall i, j | 0 <= i < |f.rows| && 0 <= j < |f.columns|
      ensures r.value[i][j] == f.rows[i][j]
    {
      IndexOfDistinct(f.columns, j);
    }
    forall i | 0 <= i < |f.rows|
      ensures r.value[i] == f.rows[i]
    {
      assert |r.value[i]| == |f.rows[i]|;
    }
    assert r.value == f.rows;
  }

  /** A frame without columns lacks every requested column. */
  lemma ProjectWithoutColumns(f: Frame, names: seq<string>)
    requires Rectangular(f) && f.columns == [] && names != []
    ensures Project(f, names) == Err(KeyError(names))
  {
    assert (set c | c in f.columns) == {};
    AbsentFromNothing(names);
  }

  /** The projection at the heart of preprocessing is exact: after the
      rename, a non-empty batch projects onto the training columns as each
      record's fields in declaration order, one row per record in batch
      order; an empty batch has no columns, so every training column is
      reported missing. */
  lemma ProjectRenamedRecords(records: seq<FeatureRecord>)
    ensures records == [] ==> Project(Renamed(FrameOf(records)), Features) == Err(KeyError(Features))
    ensures records != [] ==> Project(Renamed(FrameOf(records)), Features) == Ok(RowsOf(records))
  {
    var f := Renamed(FrameOf(records));
    if records == [] {
      ProjectWithoutColumns(f, Features);
    } else {
      RenamedColumns(records);
      FeaturesShape();
      ProjectOntoOwnColumns(f);
    }
  }

  /** `preprocess_input` with the rename it was meant to perform: a
      non-empty batch becomes the scaled matrix of its records' fields in
      declaration order; an empty batch fails with `KeyError` naming every
      training column. */
  function Preprocess(batch: ModelInputBatch, scaler: Matrix -> Matrix): (r: Result<Matrix, Error>)
    ensures r.Ok? <==> batch.inputs != []
    ensures r.Err? ==> r.error == KeyError(Features)
    ensures r.Ok? ==> r.value == scaler(RowsOf(batch.inputs))
  {
    ProjectRenamedRecords(batch.inputs);
    var x :- Project(Renamed(FrameOf(batch.inputs)), Features);
    Ok(scaler(x))
  }

  /** `preprocess_input` as written: the rename line reads the name `col`,
      which is bound nowhere, so every call raises `NameError`. */
  function PreprocessAsWritten(batch: ModelInputBatch, scaler: Matrix -> Matrix): Result<Matrix, Error> {
    Err(NameError("col"))
  }

  /** The rename line read as the comprehension
      `[col.replace('_', ' ') if 'concave points' in col else col for col in df.columns]`. */
  function RenamedByComprehension(f: Frame): (g: Frame)
    ensures g.rows == f.rows && |g.columns| == |f.columns|
    ensures forall j :: 0 <= j < |f.columns| && !Contains(f.columns[j], SpacePrefix) ==>
      g.columns[j] == f.columns[j]
    ensures forall j :: 0 <= j < |f.columns| && Contains(f.columns[j], SpacePrefix) ==>
      |g.columns[j]| == |f.columns[j]| && '_' !in g.columns[j]
  {
    Frame(seq(|f.columns|, j requires 0 <= j < |f.columns| =>
      if Contains(f.columns[j], SpacePrefix) then ReplaceChar(f.columns[j], '_', ' ') else f.columns[j]), f.rows)
  }

  /** Even read as a comprehension, the rename line would not help: the
      record keys use underscores, so no column contains "concave points",
      nothing is renamed, and projecting a non-empty batch fails with
      `KeyError` for exactly the two space-spelled training columns. */
  lemma ComprehensionReadingFails(records: seq<FeatureRecord>)
    requires records != []
    ensures Project(RenamedByComprehension(FrameOf(records)), Features).Err?
    ensures forall k :: k in Project(RenamedByComprehension(FrameOf(records)), Features).error.missing <==>
      k == Features[3] || k == Features[8]
  {
    var g := RenamedByComprehension(FrameOf(records));
    ComprehensionRenamesNothing(records);
    SpacedFeaturesUndeclared();
    ProjectOntoDeclaredNames(g);
  }

  /** A frame labelled with the declared names, projected onto the
      training columns, lacks exactly the two space-spelled ones. */
  lemma ProjectOntoDeclaredNames(g: Frame)
    requires Rectangular(g) && g.columns == FieldNames
    requires forall k :: k in Features && k !in FieldNames <==> k == Features[3] || k == Features[8]
    ensures Project(g, Features).Err?
    ensures forall k :: k in Project(g, Features).error.missing <==> k == Features[3] || k == Features[8]
  {
    assert Features[3] !in g.columns;
  }

  lemma ComprehensionRenamesNothing(records: seq<FeatureRecord>)
    requires records != []
    ensures RenamedByComprehension(FrameOf(records)).columns == FieldNames
  {
    FieldNamesHaveNoSpace();
    ComprehensionKeepsSpacelessColumns(FrameOf(records));
  }

  /** Under the comprehension reading, columns without a space keep their
      labels. */
  lemma ComprehensionKeepsSpacelessColumns(f: Frame)
    requires forall j :: 0 <= j < |f.columns| ==> ' ' !in f.columns[j]
    ensures RenamedByComprehension(f).columns == f.columns
  {
    assert SpacePrefix[7] == ' ';
    forall j | 0 <= j < |f.columns|
      ensures !Contains(f.columns[j], SpacePrefix)
    {
      NotContainedByMissingChar(f.columns[j], SpacePrefix, ' ');
    }
  }

  /** The training names missing from the declared names are exactly the
      two space-spelled ones. */
  lemma SpacedFeaturesUndeclared()
    ensures forall k :: k in Features && k !in FieldNames <==> k == Features[3] || k == Features[8]
  {
    FieldNamesHaveNoSpace();
    FeaturesShape();
    assert forall j :: 0 <= j < |Features| && j != 3 && j != 8 ==> Features[j] == FieldNames[j];
  }

  /** Where the comprehension's condition does hold, replacing every
      underscore spoils the name: "concave points_mean" becomes
      "concave points mean", which is not a training column. */
  lemma ReplaceAllSpoilsName()
    ensures ReplaceChar(Features[3], '_', ' ') == "concave points mean"
    ensures ReplaceChar(Features[3], '_', ' ') !in Features
  {
    var s := ReplaceChar(Features[3], '_', ' ');
    assert s == "concave points mean";
    assert forall j :: 0 <= j < |Features| ==> s != Features[j];
  }

  // ---------------------------------------------------------------------
  // Prediction and response assembly
  // ---------------------------------------------------------------------

  /** Python's `int()` on a number: truncation toward zero. */
  function IntOf(x: real): (n: int)
    ensures 0.0 <= x ==> n as real <= x < n as real + 1.0
    ensures x < 0.0 ==> n as real - 1.0 < x <= n as real
  {
    if x >= 0.0 then x.Floor else -((-x).Floor)
  }

  /** A whole-number label is kept as it is. */
  lemma IntOfWhole(n: int)
    ensures IntOf(n as real) == n
  {
  }

  /** `y_proba`: the probability matrix for classifiers that have
      `predict_proba`, nothing for the others. */
  function ProbabilitiesOf(model: Classifier, x: Matrix): (p: Option<Matrix>)
    ensures p.Some? <==> model.WithProbabilities?
  {
    match model
    case LabelsOnly(_) => None
    case WithProbabilities(_, proba) => Some(proba(x))
  }

  /** The list the response loop builds from `y_pred` and `y_proba`: one
      entry per label, in order, entry i holding position i, the integer of
      label i and, when there is a probability matrix, its row i. Indexing
      a probability matrix with fewer rows than labels raises `IndexError`
      at the first missing row. */
  function Assemble(yPred: seq<real>, yProba: Option<Matrix>): (r: Result<seq<Prediction>, Error>)
    ensures r.Ok? <==> yProba.None? || |yPred| <= |yProba.value|
    ensures r.Err? ==> yProba.Some? && r.error == IndexError(|yProba.value|)
    ensures r.Ok? ==> |r.value| == |yPred|
    ensures r.Ok? ==> forall i :: 0 <= i < |yPred| ==>
      r.value[i].inputIndex == i && r.value[i].predictedClass == IntOf(yPred[i])
    ensures r.Ok? ==> forall i :: 0 <= i < |yPred| ==>
      r.value[i].probabilities == if yProba.Some? then Some(yProba.value[i]) else None
    decreases |yPred|
  {
    if yPred == [] then Ok([])
    else
      var n := |yPred| - 1;
      var init :- Assemble(yPred[..n], yProba);
      if yProba.Some? && n >= |yProba.value| then Err(IndexError(n))
      else
        var probabilities := if yProba.Some? then Some(yProba.value[n]) else None;
        Ok(init + [Prediction(n, IntOf(yPred[n]), probabilities)])
  }

  /** The outcome of `predict(model_name, input_batch)`, with the rename
      performed as intended and the entries returned as a list. */
  function Response(reg: Registry, scaler: Matrix -> Matrix, name: string, batch: ModelInputBatch): (r: Result<seq<Prediction>, Error>)
    ensures Lookup(reg, name).None? ==> r == Err(ValueError(NotFoundMessage(name)))
    ensures r.Ok? ==> forall i :: 0 <= i < |r.value| ==> r.value[i].inputIndex == i
  {
    match Lookup(reg, name)
    case None => Err(ValueError(NotFoundMessage(name)))
    case Some(model) =>
      var x :- Preprocess(batch, scaler);
      Assemble(model.predict(x), ProbabilitiesOf(model, x))
  }

  /** The response loop: walk the labels in order, appending for each one
      an entry with its position, its class and, when the classifier gave
      probabilities, that row of them; a missing probability row raises
      `IndexError`. The result is the assembly of the same outputs. */
  method BuildPredictions(yPred: seq<real>, yProba: Option<Matrix>) returns (r: Result<seq<Prediction>, Error>)
    ensures r == Assemble(yPred, yProba)
  {
    var predictions: seq<Prediction> := [];
    for idx := 0 to |yPred|
      invariant Assemble(yPred[..idx], yProba) == Ok(predictions)
    {
      var probabilities := None;
      if yProba.Some? {
        if idx >= |yProba.value| {
          return Err(IndexError(idx));
        }
        probabilities := Some(yProba.value[idx]);
      }
      assert yPred[..idx + 1][..idx] == yPred[..idx];
      predictions := predictions + [Prediction(idx, IntOf(yPred[idx]), probabilities)];
    }
    assert yPred[..|yPred|] == yPred;
    return Ok(predictions);
  }

  /** `predict`: look the classifier up (an unknown name raises
      `ValueError` before any other work), preprocess, run the classifier
      and build the response. */
  method Predict(reg: Registry, scaler: Matrix -> Matrix, name: string, batch: ModelInputBatch)
    returns (r: Result<seq<Prediction>, Error>)
    ensures r == Response(reg, scaler, name, batch)
    ensures Lookup(reg, name).None? ==> r == Err(ValueError(NotFoundMessage(name)))
    ensures r.Ok? ==> forall i :: 0 <= i < |r.value| ==> r.value[i].inputIndex == i
  {
    var model := Lookup(reg, name);
    if model.None? {
      return Err(ValueError(NotFoundMessage(name)));
    }
    var xScaled := Preprocess(batch, scaler);
    if xScaled.Err? {
      return Err(xScaled.error);
    }
    var yPred := model.value.predict(xScaled.value);
    var yProba := ProbabilitiesOf(model.value, xScaled.value);
    r := BuildPredictions(yPred, yProba);
  }

  /** `predict` as written: with a registered name, preprocessing always
      raises, so no request ever gets predictions. */
  function ResponseAsWritten(reg: Registry, scaler: Matrix -> Matrix, name: string, batch: ModelInputBatch): (r: Result<seq<Prediction>, Error>)
    ensures Lookup(reg, name).None? ==> r == Err(ValueError(NotFoundMessage(name)))
    ensures Lookup(reg, name).Some? ==> r == Err(NameError("col"))
  {
    match Lookup(reg, name)
    case None => Err(ValueError(NotFoundMessage(name)))
    case Some(model) =>
      match PreprocessAsWritten(batch, scaler)
      case Err(e) => Err(e)
      case Ok(x) => Assemble(model.predict(x), ProbabilitiesOf(model, x))
  }

  /** As written, every call fails: with an unknown name by `ValueError`,
      with a registered one by `NameError` from the rename line, whereas
      the intended pipeline succeeds on the same inputs, for instance on a
      one-record batch with a labels-only classifier. */
  lemma AsWrittenNeverPredicts(reg: Registry, scaler: Matrix -> Matrix, name: string, batch: ModelInputBatch)
    ensures ResponseAsWritten(reg, scaler, name, batch).Err?
    ensures Lookup(reg, name).Some? ==> ResponseAsWritten(reg, scaler, name, batch) == Err(NameError("col"))
    ensures Lookup(reg, name).Some? && Lookup(reg, name).value.LabelsOnly? && batch.inputs != [] ==>
      Response(reg, scaler, name, batch).Ok?
  {
  }

  /** The scaler keeps one output row per input row. */
  ghost predicate RowPreserving(scaler: Matrix -> Matrix) {
    forall x: Matrix :: |scaler(x)| == |x|
  }

  /** The classifier's `predict` (and `predict_proba`, when it has one)
      give one output row per input row. */
  ghost predicate WellBehaved(model: Classifier) {
    && (forall x: Matrix :: |model.predict(x)| == |x|)
    && (model.WithProbabilities? ==> forall x: Matrix :: |model.predictProba(x)| == |x|)
  }

  /** For a registered classifier, a non-empty batch and artifacts that
      keep one row per sample, the response has one entry per input record,
      entry i at position i, carrying the class of label i and, exactly for
      classifiers with `predict_proba`, row i of the probabilities. */
  lemma OneEntryPerRecord(reg: Registry, scaler: Matrix -> Matrix, name: string, batch: ModelInputBatch)
    requires Lookup(reg, name).Some? && WellBehaved(Lookup(reg, name).value)
    requires RowPreserving(scaler)
    requires batch.inputs != []
    ensures Response(reg, scaler, name, batch).Ok?
    ensures |Response(reg, scaler, name, batch).value| == |batch.inputs|
    ensures forall i :: 0 <= i < |batch.inputs| ==> Response(reg, scaler, name, batch).value[i].inputIndex == i
    ensures forall i :: 0 <= i < |batch.inputs| ==>
      Response(reg, scaler, name, batch).value[i].predictedClass ==
        IntOf(Lookup(reg, name).value.predict(scaler(RowsOf(batch.inputs)))[i])
    ensures forall i :: 0 <= i < |batch.inputs| ==>
      (Response(reg, scaler, name, batch).value[i].probabilities.Some? <==> Lookup(reg, name).value.WithProbabilities?)
  {
    var model := Lookup(reg, name).value;
    var x := Preprocess(batch, scaler).value;
    assert |x| == |batch.inputs|;
    assert |model.predict(x)| == |x|;
  }

  /** Probabilities are all present or all absent: on success, every entry
      has them when the classifier has `predict_proba` (entry i getting row
      i), and none has them otherwise. */
  lemma ProbabilitiesAllOrNothing(reg: Registry, scaler: Matrix -> Matrix, name: string, batch: ModelInputBatch)
    requires Response(reg, scaler, name, batch).Ok?
    ensures Lookup(reg, name).Some? && Preprocess(batch, scaler).Ok?
    ensures Lookup(reg, name).value.WithProbabilities? ==>
      |Response(reg, scaler, name, batch).value| <= |Lookup(reg, name).value.predictProba(Preprocess(batch, scaler).value)|
    ensures Lookup(reg, name).value.LabelsOnly? ==>
      forall e :: e in Response(reg, scaler, name, batch).value ==> e.probabilities.None?
    ensures Lookup(reg, name).value.WithProbabilities? ==>
      forall i :: 0 <= i < |Response(reg, scaler, name, batch).value| ==>
        Response(reg, scaler, name, batch).value[i].probabilities ==
        Some(Lookup(reg, name).value.predictProba(Preprocess(batch, scaler).value)[i])
  {
    var model := Lookup(reg, name).value;
    var x := Preprocess(batch, scaler).value;
    var r := Assemble(model.predict(x), ProbabilitiesOf(model, x));
    assert Response(reg, scaler, name, batch) == r;
    if model.LabelsOnly? {
      assert forall i :: 0 <= i < |r.value| ==> r.value[i].probabilities.None?;
    }
  }

  /** With a registered name, an empty batch fails with `KeyError` for all
      ten training columns; a non-empty one always gets past
      preprocessing. */
  lemma EmptyBatchFails(reg: Registry, scaler: Matrix -> Matrix, name: string, batch: ModelInputBatch)
    requires Lookup(reg, name).Some?
    ensures batch.inputs == [] <==> Response(reg, scaler, name, batch) == Err(KeyError(Features))
  {
    if batch.inputs != [] {
      var model := Lookup(reg, name).value;
      var x := Preprocess(batch, scaler).value;
      var a := Assemble(model.predict(x), ProbabilitiesOf(model, x));
      assert a.Err? ==> a.error.IndexError?;
    }
  }

  /** Names that lower-case alike get the same response once the lookup
      succeeds; an unknown name fails the same way for every batch and
      scaler, its message quoting the name as given. */
  lemma ResponseIgnoresNameCase(reg: Registry, scaler: Matrix -> Matrix, a: string, b: string, batch: ModelInputBatch)
    requires Lower(a) == Lower(b)
    ensures Lookup(reg, a).Some? ==> Response(reg, scaler, a, batch) == Response(reg, scaler, b, batch)
    ensures Lookup(reg, a).None? ==>
      Response(reg, scaler, a, batch) == Err(ValueError(NotFoundMessage(a))) &&
      Response(reg, scaler, b, batch) == Err(ValueError(NotFoundMessage(b)))
  {
  }

  /** `PredictionResponse(predictions=predictions)` as written: the
      input-record class is called with the single keyword `predictions`,
      so its validation reports the declared fields that were not given. */
  function ReturnAsWritten(predictions: seq<Prediction>): Result<(), seq<string>> {
    var missing := Absent(FieldNames, {"predictions"});
    if missing == [] then Ok(()) else Err(missing)
  }

  /** The as-written return never yields the entries: all ten declared
      fields are reported missing, for every list of entries. */
  lemma ReturnAsWrittenRejected(predictions: seq<Prediction>)
    ensures ReturnAsWritten(predictions).Err?
    ensures forall k :: k in ReturnAsWritten(predictions).error <==> k in FieldNames
  {
    FieldNamesHaveNoSpace();
    assert "predictions" !in FieldNames;
  }
}
