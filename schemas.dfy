/** The request schema of the inference service (src/schemas.py): one input
    sample with ten required real-valued fields, and a batch holding an
    ordered list of samples. Validation follows the record declarations:
    every declared field is required, keys that are not declared are
    ignored, and the batch list has no minimum length. */
module Schemas {
  import opened Wrappers

  /** One input sample. The source declares this class under the name
      `PredictionResponse`; its fields, in declaration order, are those of
      FieldNames. */
  datatype FeatureRecord = FeatureRecord(
    perimeterMean: real,
    areaMean: real,
    concavityMean: real,
    concavePointsMean: real,
    radiusWorst: real,
    textureWorst: real,
    perimeterWorst: real,
    areaWorst: real,
    concavePointsWorst: real,
    radiusTextureInteraction: real)

  /** The request body: the samples under `inputs`, in order. */
  datatype ModelInputBatch = ModelInputBatch(inputs: seq<FeatureRecord>)

  /** The declared field names, in declaration order. The two concave-points
      fields are spelled with underscores. */
  const FieldNames: seq<string> := [
    "perimeter_mean",
    "area_mean",
    "concavity_mean",
    "concave_points_mean",
    "radius_worst",
    "texture_worst",
    "perimeter_worst",
    "area_worst",
    "concave_points_worst",
    "radius_texture_interaction"
  ]

  /** The field values of a record, in declaration order. */
  function Values(r: FeatureRecord): (vs: seq<real>)
    ensures |vs| == |FieldNames|
  {
    [r.perimeterMean, r.areaMean, r.concavityMean, r.concavePointsMean,
     r.radiusWorst, r.textureWorst, r.perimeterWorst, r.areaWorst,
     r.concavePointsWorst, r.radiusTextureInteraction]
  }

  /** The declared field names are pairwise distinct. */
  lemma FieldNamesDistinct()
    ensures forall i, j :: 0 <= i < j < |FieldNames| ==> FieldNames[i] != FieldNames[j]
  {
  }

  /** `item.dict()`: a map from each declared field name to that field's
      value, and nothing else. */
  function ToDict(r: FeatureRecord): (d: map<string, real>)
    ensures forall k :: k in d <==> k in FieldNames
    ensures forall i :: 0 <= i < |FieldNames| ==> d[FieldNames[i]] == Values(r)[i]
  {
    FieldNamesDistinct();
    map[
      FieldNames[0] := r.perimeterMean,
      FieldNames[1] := r.areaMean,
      FieldNames[2] := r.concavityMean,
      FieldNames[3] := r.concavePointsMean,
      FieldNames[4] := r.radiusWorst,
      FieldNames[5] := r.textureWorst,
      FieldNames[6] := r.perimeterWorst,
      FieldNames[7] := r.areaWorst,
      FieldNames[8] := r.concavePointsWorst,
      FieldNames[9] := r.radiusTextureInteraction
    ]
  }

  /** The names among `names` that are not keys of `keys`, in order. */
  function Absent(names: seq<string>, keys: set<string>): (missing: seq<string>)
    ensures forall k :: k in missing <==> k in names && k !in keys
    ensures |missing| <= |names|
  {
    if names == [] then []
    else if names[0] in keys then Absent(names[1..], keys)
    else [names[0]] + Absent(names[1..], keys)
  }

  /** Validation of one sample given as a key-to-number map: it succeeds
      exactly when every declared field is present, and then builds the
      record from those fields alone; otherwise it reports the missing
      field names in declaration order. */
  function ParseRecord(m: map<string, real>): (r: Result<FeatureRecord, seq<string>>)
    ensures r.Ok? <==> forall i :: 0 <= i < |FieldNames| ==> FieldNames[i] in m
    ensures r.Ok? ==> forall i :: 0 <= i < |FieldNames| ==> Values(r.value)[i] == m[FieldNames[i]]
    ensures r.Err? ==> r.error != [] && forall k :: k in r.error <==> k in FieldNames && k !in m
  {
    var missing := Absent(FieldNames, m.Keys);
    if missing != [] then
      assert missing[0] in FieldNames;
      Err(missing)
    else
      Ok(FeatureRecord(
        m[FieldNames[0]], m[FieldNames[1]], m[FieldNames[2]], m[FieldNames[3]],
        m[FieldNames[4]], m[FieldNames[5]], m[FieldNames[6]], m[FieldNames[7]],
        m[FieldNames[8]], m[FieldNames[9]]))
  }

  /** A record survives conversion to its map and back. */
  lemma ParseToDict(r: FeatureRecord)
    ensures ParseRecord(ToDict(r)) == Ok(r)
  {
    var p := ParseRecord(ToDict(r));
    assert p.Ok?;
    assert Values(p.value) == Values(r);
  }

  /** Keys that are not declared fields play no part in validation. */
  lemma {:induction false} ParseIgnoresExtraKeys(m: map<string, real>, extra: map<string, real>)
    requires forall k :: k in extra ==> k !in FieldNames
    ensures ParseRecord(m + extra) == ParseRecord(m)
  {
    assert (m + extra).Keys == m.Keys + extra.Keys;
    AbsentIgnoresExtraKeys(FieldNames, m.Keys, extra.Keys);
    assert forall i :: 0 <= i < |FieldNames| ==> FieldNames[i] !in extra;
  }

  lemma {:induction false} AbsentIgnoresExtraKeys(names: seq<string>, keys: set<string>, extra: set<string>)
    requires forall k :: k in extra ==> k !in names
    ensures Absent(names, keys + extra) == Absent(names, keys)
    decreases |names|
  {
    if names != [] {
      assert names[0] !in extra;
      AbsentIgnoresExtraKeys(names[1..], keys, extra);
    }
  }

  /** A sample that spells the two concave-points keys with a space, as the
      training columns do, and omits the underscore spelling is rejected,
      and exactly the two underscore fields are reported missing. */
  lemma SpaceSpellingRejected(m: map<string, real>)
    requires forall i :: 0 <= i < |FieldNames| && i != 3 && i != 8 ==> FieldNames[i] in m
    requires "concave_points_mean" !in m && "concave_points_worst" !in m
    ensures ParseRecord(m).Err?
    ensures forall k :: k in ParseRecord(m).error <==> k == "concave_points_mean" || k == "concave_points_worst"
  {
    assert FieldNames[3] !in m;
  }

  /** The error for one sample of a batch: its position and missing fields. */
  datatype RecordError = RecordError(index: nat, missing: seq<string>)

  /** Gathers per-sample validation results: all records in order when
      every sample validated, otherwise every failure with its position. */
  function Collect(results: seq<Result<FeatureRecord, seq<string>>>): (r: Result<seq<FeatureRecord>, seq<RecordError>>)
    ensures r.Ok? <==> forall i :: 0 <= i < |results| ==> results[i].Ok?
    ensures r.Ok? ==> |r.value| == |results| && forall i :: 0 <= i < |results| ==> results[i] == Ok(r.value[i])
    ensures r.Err? ==> forall e :: e in r.error ==> e.index < |results| && results[e.index] == Err(e.missing)
    ensures r.Err? ==> forall i :: 0 <= i < |results| && results[i].Err? ==> RecordError(i, results[i].error) in r.error
    decreases |results|
  {
    if results == [] then Ok([])
    else
      var n := |results| - 1;
      var init := Collect(results[..n]);
      assert forall i :: 0 <= i < n ==> results[..n][i] == results[i];
      match results[n]
      case Ok(rec) =>
        if init.Ok? then Ok(init.value + [rec]) else init
      case Err(missing) =>
        Err((if init.Ok? then [] else init.error) + [RecordError(n, missing)])
  }

  /** Validation of the `inputs` list: it succeeds exactly when every sample
      validates, keeping their order, and otherwise reports every failing
      sample by position. */
  function ParseBatch(items: seq<map<string, real>>): (r: Result<ModelInputBatch, seq<RecordError>>)
    ensures r.Ok? <==> forall i :: 0 <= i < |items| ==> ParseRecord(items[i]).Ok?
    ensures r.Ok? ==> |r.value.inputs| == |items|
    ensures r.Ok? ==> forall i :: 0 <= i < |items| ==> ParseRecord(items[i]) == Ok(r.value.inputs[i])
    ensures r.Err? ==> forall e :: e in r.error ==>
      e.index < |items| && ParseRecord(items[e.index]) == Err(e.missing)
    ensures r.Err? ==> forall i :: 0 <= i < |items| && ParseRecord(items[i]).Err? ==>
      RecordError(i, ParseRecord(items[i]).error) in r.error
  {
    var results := seq(|items|, i requires 0 <= i < |items| => ParseRecord(items[i]));
    var collected := Collect(results);
    assert forall i :: 0 <= i < |items| ==> results[i] == ParseRecord(items[i]);
    if collected.Ok? then Ok(ModelInputBatch(collected.value)) else Err(collected.error)
  }

  /** The schema sets no minimum length: an empty `inputs` list is valid. */
  lemma EmptyBatchAccepted()
    ensures ParseBatch([]) == Ok(ModelInputBatch([]))
  {
  }

  /** No declared field name contains a space. */
  lemma FieldNamesHaveNoSpace()
    ensures forall i :: 0 <= i < |FieldNames| ==> ' ' !in FieldNames[i]
  {
  }
}
