# Breast-cancer diagnosis inference pipeline: a Dafny model

This project models the inference core of a small classification service:
the request schema (`src/schemas.py`) and the prediction pipeline
(`src/inference.py`). A request names one of four pre-trained classifiers
(`logistic`, `knn`, `random_forest`, `svm`) and carries a batch of samples,
each with ten real-valued measurements. The pipeline works in four steps:
1. It looks the classifier up by its lower-cased name.
2. It turns the batch into a data frame and is meant to rename the two
   concave-points columns to the spelling used in training. As written,
   line 38 raises `NameError` (see Findings); the model carries both the
   line as written and the intended rename.
3. It projects the frame onto the ten training columns in training order
   and scales it.
4. It runs the classifier and builds one response entry per row. Each entry
   holds the row index, the integer class and, for classifiers that have
   `predict_proba`, that row's probabilities.

Files:

- `wrappers.dfy` (module `Wrappers`): `Option` and `Result`.
- `text.dfy` (module `Text`): the Python string operations the code uses
  (`lower`, the substring test, one-character `replace`, and the `repr` of
  a list of names), plus a prefix test that the intended rename at line 38
  relies on.
- `schemas.dfy` (module `Schemas`): the ten-field input record (declared in
  the source under the name `PredictionResponse`), the batch, the record's
  `dict()` form, and validation of a record and of a batch.
- `inference.dfy` (module `Inference`): the registry and its lookup, the
  `FEATURES` constant, the rename, the data frame and its projection,
  preprocessing, the response loop and `predict`.

The fitted scaler and classifiers are opaque artifacts. They are parameters:
- the scaler is a function `Matrix -> Matrix`;
- a classifier is a datatype with two variants, `LabelsOnly(predict)` and
  `WithProbabilities(predict, predictProba)`.

So whether `predict_proba` exists is fixed by the variant. Python exceptions
become the `Error` datatype (`ValueError`, `KeyError`, `NameError`,
`IndexError`). `predict` is a method whose result equals the pure function
`Response`. Its response loop is the method `BuildPredictions`.
That method is proved, through its loop invariant, equal to the function
`Assemble`.

Facts about the code that the model makes explicit:
- The batch schema accepts an empty list (`Schemas.EmptyBatchAccepted`), and
  the code gives an empty batch no error of its own. As written, it raises
  `NameError` at line 38 like every other batch. With the rename corrected,
  `pd.DataFrame([])` has no columns, so the projection raises `KeyError`
  naming all ten training columns (`Inference.EmptyBatchFails`).
- The schema declares the concave-points fields with underscores. A request
  that spells them with a space, as the training columns do, is rejected by
  validation, which reports the two underscore fields as missing
  (`Schemas.SpaceSpellingRejected`).
- An unknown model name raises `ValueError` with the message of line 48.
  Undeclared keys in a record are ignored by validation.

## Model

| member | source | states |
|---|---|---|
| `Text.Lower` | src/inference.py:46 | `model_name.lower()` keeps the length, turns every upper-case letter into its lower-case partner, keeps every other character, and leaves no upper-case letter |
| `Text.LowerIdempotent` | src/inference.py:46 | lower-casing an already lower-cased name changes nothing |
| `Inference.Lookup` | src/inference.py:46-47 | a classifier is found exactly when the lower-cased name is one of the four registry keys |
| `Inference.LookupFindsLoadedClassifier` | src/inference.py:15-20 | each registry key yields the classifier loaded under it |
| `Inference.RegistryKeysLowerCase` | src/inference.py:15-20 | the four keys are distinct and already lower case, so lower-casing reaches each of them |
| `Inference.LookupIgnoresCase` | src/inference.py:46 | any name finds what its lower-cased form finds |
| `Inference.LookupExamples` | src/inference.py:46-47 | `LOGISTIC`, `Logistic` and `logistic` find the logistic classifier; `nonexistent` finds none |
| `Inference.Models` | src/inference.py:15-20 | `MODELS` has exactly the four registry keys, each mapped to the classifier loaded for it |
| `Inference.NotFoundMessageText` | src/inference.py:48 | the error message quotes the requested name as given and lists `'logistic', 'knn', 'random_forest', 'svm'` in that order |
| `Inference.NotFoundMessage` | src/inference.py:48 | the message starts with `Model '` followed by the requested name exactly as given, and ends with the list of registry keys |
| `Text.ListRepr` | src/inference.py:48 | the printed list is bracketed, is `[]` exactly for an empty list, and is `['x']` for a single item `x` |
| `Inference.ResponseIgnoresNameCase` | src/inference.py:46-48 | names that lower-case alike get the same response; an unknown name fails with `ValueError` quoting that name as given, whatever the batch and scaler |
| `Inference.FeaturesShape` | src/inference.py:23-34 | `FEATURES` has ten distinct names; exactly those at positions 3 and 8 contain a space |
| `Inference.RenameKey` | src/inference.py:38 | the intended rename changes at most the underscore after `concave`, and changes it exactly for names starting with `concave_points`, which then start with `concave points` |
| `Inference.RenameIdempotent` | src/inference.py:38 | renaming a renamed name changes nothing |
| `Inference.RenameMatchesTraining` | src/inference.py:23-34 | renamed position by position, the declared field names are exactly `FEATURES`, and only positions 3 and 8 change |
| `Inference.FrameOf` | src/inference.py:37 | the frame has one row per record; its columns are the declared names (none for an empty batch); each cell is the record's value under that column |
| `Inference.Renamed` | src/inference.py:38 | the intended rename leaves the cells alone and changes exactly the labels starting with `concave_points`, each to one starting with `concave points`; the declared field names become `FEATURES` |
| `Text.Contains` | src/inference.py:38 | the substring test `sub in s` holds exactly when `sub` occurs in `s` at some position |
| `Text.ReplaceChar` | src/inference.py:38 | one-character `replace` keeps the length, turns every occurrence of `from` into `to`, keeps every other character, and leaves no `from` behind when the two differ |
| `Inference.RenamedByComprehension` | src/inference.py:38 | read as a comprehension, the rename leaves the cells alone, keeps every label not containing `concave points`, and strips every underscore from the labels that contain it |
| `Inference.RenamedColumns` | src/inference.py:38 | after the rename, a non-empty batch's frame has exactly the `FEATURES` columns in `FEATURES` order |
| `Inference.Project` | src/inference.py:39 | `df[FEATURES]` succeeds exactly when every requested column exists, and then gives one row per frame row with the requested columns in the requested order; otherwise `KeyError` names exactly the absent columns |
| `Inference.ProjectOntoOwnColumns` | src/inference.py:39 | projecting a frame with distinct labels onto its own labels returns its rows unchanged |
| `Inference.ProjectWithoutColumns` | src/inference.py:39 | a frame with no columns reports every requested column missing |
| `Inference.ProjectRenamedRecords` | src/inference.py:37-39 | after the rename, a non-empty batch projects to each record's fields in declaration order, one row per record in batch order; an empty batch gives `KeyError` for all ten columns |
| `Inference.Preprocess` | src/inference.py:36-40 | with the rename corrected, preprocessing succeeds exactly for a non-empty batch, giving the scaler applied to the records' fields in declaration order; otherwise it fails with `KeyError(FEATURES)` |
| `Inference.ComprehensionKeepsSpacelessColumns` | src/inference.py:38 | read as a comprehension, the rename line leaves every label without a space unchanged |
| `Inference.ComprehensionReadingFails` | src/inference.py:38 | read as a comprehension, the rename leaves the record columns unchanged, so projecting any non-empty batch fails with `KeyError` for exactly the two space-spelled columns |
| `Inference.ReplaceAllSpoilsName` | src/inference.py:38 | replacing every underscore turns `concave points_mean` into `concave points mean`, which is not a training column |
| `Inference.AsWrittenNeverPredicts` | src/inference.py:38 | as written, every call fails: `ValueError` for an unknown name, `NameError` for a registered one; for a labels-only classifier and a non-empty batch the corrected pipeline succeeds on the same inputs |
| `Inference.IntOf` | src/inference.py:62 | `int()` truncates toward zero |
| `Inference.IntOfWhole` | src/inference.py:62 | a whole-number label is kept unchanged |
| `Inference.ProbabilitiesOf` | src/inference.py:55 | probabilities are computed exactly for classifiers that have `predict_proba` |
| `Inference.Assemble` | src/inference.py:58-67 | one entry per label in order; entry i has index i and class `int(label i)`; probabilities are row i for every entry or absent from every entry; a missing probability row raises `IndexError` at that row |
| `Inference.BuildPredictions` | src/inference.py:58-67 | the loop that appends one entry per label returns exactly `Assemble` of the labels and probabilities |
| `Inference.Predict` | src/inference.py:43-69 | with lines 38 and 69 corrected, `predict` returns `Response`: an unknown name raises `ValueError` before any other work, preprocessing errors pass through unchanged, and on success each entry's index equals its position |
| `Inference.Response` | src/inference.py:43-69 | with lines 38 and 69 corrected, an unknown name gives `ValueError` with the message of line 48, and on success each entry's index equals its position |
| `Inference.ResponseAsWritten` | src/inference.py:43-69 | as written, an unknown name gives `ValueError` with the message of line 48 and every registered name gives `NameError` from line 38, whatever the batch |
| `Inference.OneEntryPerRecord` | src/inference.py:54-67 | with the rename corrected, for a registered name and a non-empty batch with row-preserving artifacts, the response succeeds with one entry per input record; entry i has index i, class `int()` of the classifier's label i for the scaled records, and probabilities exactly when the classifier has `predict_proba` |
| `Inference.ProbabilitiesAllOrNothing` | src/inference.py:55-65 | on success, no entry has probabilities for a labels-only classifier; otherwise entry i carries row i of `predict_proba` |
| `Inference.EmptyBatchFails` | src/inference.py:37-39 | with the rename corrected and a registered name, the response is `KeyError(FEATURES)` exactly when the batch is empty |
| `Inference.ReturnAsWrittenRejected` | src/inference.py:69 | building the input-record class from the `predictions` keyword reports all ten declared fields missing |
| `Schemas.FieldNamesDistinct` | src/schemas.py:6-15 | the ten declared field names are pairwise distinct |
| `Schemas.FieldNamesHaveNoSpace` | src/schemas.py:6-15 | no declared name contains a space, including the two concave-points fields |
| `Schemas.ToDict` | src/schemas.py:4-15 | a record's `dict()` has exactly the ten declared names as keys, each mapped to that field's value |
| `Schemas.ParseRecord` | src/schemas.py:4-15 | a sample validates exactly when all ten declared fields are present, and then takes its values from them; otherwise it reports exactly the missing ones |
| `Schemas.ParseToDict` | src/schemas.py:4-15 | validating a record's `dict()` gives the record back |
| `Schemas.ParseIgnoresExtraKeys` | src/schemas.py:4-15 | keys that are not declared fields do not affect validation |
| `Schemas.SpaceSpellingRejected` | src/schemas.py:9-14 | a sample with space-spelled concave-points keys is rejected, with exactly the two underscore fields missing |
| `Schemas.Collect` | src/schemas.py:18-19 | per-sample results combine to all records in order, or to every failure with its position |
| `Schemas.ParseBatch` | src/schemas.py:18-19 | a batch validates exactly when every sample does, keeping order and length; otherwise every failing sample is reported by position |
| `Schemas.EmptyBatchAccepted` | src/schemas.py:18-19 | the schema sets no minimum length: an empty `inputs` list is valid |

## Left out

- Text.Lower: lower-cases ASCII letters only. Python's `str.lower` also maps other Unicode letters. For example, the Kelvin sign lower-cases to `k`, so Python would accept `"Knn"` as `knn`.
- Inference.Lookup: weaker in the same way, because it relies on `Text.Lower`.
- Inference.OneEntryPerRecord: assumes the scaler and classifier return one output row per input row, as the scikit-learn contract says. The model does not check this of opaque artifacts.
- The scaler's arithmetic and the classifiers' numerics are left out. Both are opaque floating-point code and enter the model as functions. So nothing is stated about probabilities summing to one or about the number of classes.
- The scaler and classifiers are total functions here. Exceptions they raise are not modelled, for example scikit-learn's `ValueError` on a mismatch in width or feature names, which the HTTP layer would turn into a 500 response.
- Floating-point values are modelled as exact reals. Pydantic's coercion of non-float inputs (integers, numeric strings) and its type errors are left out: records hold reals by construction.
- The data frame is built only from typed records, as `predict` receives it. Frames with unequal key sets and NaN filling cannot arise and are not modelled. Neither are duplicate column labels.
- The text of pandas' `KeyError` message is left out. The error carries the list of missing column names.
- `repr` of strings is modelled for strings without quotes or backslashes only. That covers the registry keys.
- The response is returned as the list of entries. The source's wrapping at src/inference.py:69 is recorded under Findings.
- The HTTP layer (routing, API key check, CORS, mapping `ValueError` to 400 and other errors to 500) and the Streamlit client are network and UI code. They are not part of this model.
- Loading the artifacts from disk (src/config.py, and the second scaler load at src/inference.py:12) is I/O. The registry and scaler are parameters.
- Concurrency: the registry and scaler are immutable values here, so sharing them between requests needs no modelling.

## Findings

| source | as written | input that shows it | evidently intended | confidence | as-written member | corrected member |
|---|---|---|---|---|---|---|
| src/inference.py:38 | the rename line reads `col`, which is bound nowhere, so it raises `NameError`. Read as a comprehension, it would still rename nothing, because the keys use underscores, and its replace-all would give `concave points mean` | any registered model name with any batch, e.g. `logistic` with one record carrying the ten declared fields | rewrite the `concave_points` prefix to `concave points` and keep every other column | high; not executed | `Inference.PreprocessAsWritten` and `Inference.ResponseAsWritten`, shown by `Inference.AsWrittenNeverPredicts`, `Inference.ComprehensionReadingFails` and `Inference.ReplaceAllSpoilsName` | `Inference.Preprocess`, proved by `Inference.ProjectRenamedRecords` and `Inference.RenameMatchesTraining` |
| src/inference.py:69 | the entries are wrapped in the input-record class as `PredictionResponse(predictions=...)`. That class declares the ten feature fields and no `predictions` field, so validation fails | once line 38 is fixed, any prediction that reaches line 69, e.g. `logistic` with one record carrying the ten declared fields, giving one entry with `input_index: 0`, an integer `predicted_class` and a `probabilities` list | return the list of entries | high; not executed | `Inference.ReturnAsWritten`, shown by `Inference.ReturnAsWrittenRejected` | `Inference.Predict`, which returns the entries (`Inference.Response`, `Inference.OneEntryPerRecord`) |
