/**
 Metadata records for machine-learning pipelines and models, as they are
 prepared for the database (import) and rebuilt from it (export).

 A record is modelled as the dictionary the builders produce before it is
 serialised: a finite map from field names to values. Values are passed
 through untouched, so their inner structure only matters for the fields
 the export builders fill in themselves (a name, an identifier, a flag).
 */
module MachineLearning {

  /** A JSON-like value. Numbers keep their literal text: the builders never
      compute with them, so floating point (an accuracy, a score) stays opaque. */
  datatype Value =
    | Null
    | Bool(b: bool)
    | Number(literal: string)
    | Str(s: string)
    | List(items: seq<Value>)
    | Object(fields: map<string, Value>)

  /** A metadata dictionary, before serialisation. */
  type Record = map<string, Value>

  /** The exception raised when a required field is absent; it names the field. */
  datatype Error = MissingKeyError(key: string)

  datatype Result<T> = Ok(value: T) | Err(error: Error)

  /** Required fields of a pipeline, in the order they are checked. */
  const PipelineKeys: seq<string> :=
    ["models", "created_by", "creation_date", "description", "job_name",
     "version", "dataset_description", "Accuracy"]

  /** Required fields of a model, in the order they are checked. */
  const ModelKeys: seq<string> :=
    ["endpoint", "api_key", "content_type", "deployment_platform", "created_by",
     "creation_date", "description", "version", "job_name", "dataset_description",
     "Accuracy"]

  /** The fields every pipeline export starts from. */
  const PipelineBaseKeys: set<string> := {"models", "pipeline_id", "pipeline_name", "default"}

  /** The fields every model export starts from. */
  const ModelBaseKeys: set<string> := {"model_id", "model_name", "endpoint_name", "task", "version"}

  /** The set of names listed in `keys`. */
  function KeySet(keys: seq<string>): set<string>
  {
    set k | k in keys
  }

  /** `k` is the first entry of `keys`, in list order, that `d` lacks. */
  ghost predicate IsFirstAbsent(keys: seq<string>, d: Record, k: string)
  {
    exists i :: 0 <= i < |keys| && keys[i] == k && k !in d &&
      forall j :: 0 <= j < i ==> keys[j] in d
  }

  /** The scan over the required keys: the position of the first key that `d`
      lacks, or `|keys|` when every key is present. */
  function FirstAbsent(keys: seq<string>, d: Record): (i: nat)
    ensures i <= |keys|
    ensures forall j :: 0 <= j < i ==> keys[j] in d
    ensures i < |keys| ==> keys[i] !in d
  {
    if keys == [] then 0
    else if keys[0] !in d then 0
    else 1 + FirstAbsent(keys[1..], d)
  }

  /** The scan reports a missing key exactly when some listed key is absent,
      and the key it reports is the first absent one. */
  lemma FirstAbsentReports(keys: seq<string>, d: Record)
    ensures FirstAbsent(keys, d) < |keys| <==> exists k :: k in keys && k !in d
    ensures FirstAbsent(keys, d) < |keys| ==> IsFirstAbsent(keys, d, keys[FirstAbsent(keys, d)])
  {
    var i := FirstAbsent(keys, d);
    if i == |keys| {
      forall k | k in keys ensures k in d {
        var j :| 0 <= j < |keys| && keys[j] == k;
      }
    }
  }

  /** Two "first absent" keys of the same list and dictionary are the same key. */
  lemma FirstAbsentUnique(keys: seq<string>, d: Record, k1: string, k2: string)
    requires IsFirstAbsent(keys, d, k1) && IsFirstAbsent(keys, d, k2)
    ensures k1 == k2
  {
    var i1 :| 0 <= i1 < |keys| && keys[i1] == k1 && k1 !in d &&
      forall j :: 0 <= j < i1 ==> keys[j] in d;
    var i2 :| 0 <= i2 < |keys| && keys[i2] == k2 && k2 !in d &&
      forall j :: 0 <= j < i2 ==> keys[j] in d;
    assert i1 == i2;
  }

  /** The scan only looks at whether the listed keys are present. */
  lemma {:induction false} FirstAbsentOnlyListed(keys: seq<string>, d: Record, e: Record)
    requires forall k :: k in keys ==> (k in d <==> k in e)
    ensures FirstAbsent(keys, d) == FirstAbsent(keys, e)
  {
    if keys != [] && keys[0] in d {
      FirstAbsentOnlyListed(keys[1..], d, e);
    }
  }

  /** Builds the pipeline record to store: every required field must be present,
      and only the required fields are kept. */
  function BuildPipelineImport(pipeline: Record): (r: Result<Record>)
    ensures r.Err? <==> exists k :: k in PipelineKeys && k !in pipeline
    ensures r.Err? ==> IsFirstAbsent(PipelineKeys, pipeline, r.error.key)
    ensures r.Ok? ==> r.value.Keys == KeySet(PipelineKeys)
    ensures r.Ok? ==> forall k :: k in r.value ==> k in pipeline && r.value[k] == pipeline[k]
  {
    FirstAbsentReports(PipelineKeys, pipeline);
    var i := FirstAbsent(PipelineKeys, pipeline);
    if i < |PipelineKeys| then
      Err(MissingKeyError(PipelineKeys[i]))
    else
      assert PipelineKeys[0] in pipeline && PipelineKeys[1] in pipeline &&
             PipelineKeys[2] in pipeline && PipelineKeys[3] in pipeline &&
             PipelineKeys[4] in pipeline && PipelineKeys[5] in pipeline &&
             PipelineKeys[6] in pipeline && PipelineKeys[7] in pipeline;
      var db := map[
        "models" := pipeline["models"],
        "created_by" := pipeline["created_by"],
        "creation_date" := pipeline["creation_date"],
        "description" := pipeline["description"],
        "job_name" := pipeline["job_name"],
        "version" := pipeline["version"],
        "dataset_description" := pipeline["dataset_description"],
        "Accuracy" := pipeline["Accuracy"]
      ];
      assert db.Keys == KeySet(PipelineKeys);
      Ok(db)
  }

  /** Builds the model record to store: every required field must be present,
      and only the required fields are kept. */
  function BuildModelImport(model: Record): (r: Result<Record>)
    ensures r.Err? <==> exists k :: k in ModelKeys && k !in model
    ensures r.Err? ==> IsFirstAbsent(ModelKeys, model, r.error.key)
    ensures r.Ok? ==> r.value.Keys == KeySet(ModelKeys)
    ensures r.Ok? ==> forall k :: k in r.value ==> k in model && r.value[k] == model[k]
  {
    FirstAbsentReports(ModelKeys, model);
    var i := FirstAbsent(ModelKeys, model);
    if i < |ModelKeys| then
      Err(MissingKeyError(ModelKeys[i]))
    else
      assert ModelKeys[0] in model && ModelKeys[1] in model &&
             ModelKeys[2] in model && ModelKeys[3] in model &&
             ModelKeys[4] in model && ModelKeys[5] in model &&
             ModelKeys[6] in model && ModelKeys[7] in model &&
             ModelKeys[8] in model && ModelKeys[9] in model &&
             ModelKeys[10] in model;
      var db := map[
        "endpoint" := model["endpoint"],
        "api_key" := model["api_key"],
        "content_type" := model["content_type"],
        "deployment_platform" := model["deployment_platform"],
        "created_by" := model["created_by"],
        "creation_date" := model["creation_date"],
        "description" := model["description"],
        "version" := model["version"],
        "job_name" := model["job_name"],
        "dataset_description" := model["dataset_description"],
        "Accuracy" := model["Accuracy"]
      ];
      assert db.Keys == KeySet(ModelKeys);
      Ok(db)
  }

  /** Importing an imported pipeline record again succeeds and changes nothing. */
  lemma PipelineImportIdempotent(pipeline: Record)
    ensures BuildPipelineImport(pipeline).Ok? ==> BuildPipelineImport(BuildPipelineImport(pipeline).value) == BuildPipelineImport(pipeline)
  {
    if BuildPipelineImport(pipeline).Ok? {
      var s := BuildPipelineImport(pipeline).value;
      var t := BuildPipelineImport(s);
      assert t.Ok?;
      assert t.value == s;
    }
  }

  /** Importing an imported model record again succeeds and changes nothing. */
  lemma ModelImportIdempotent(model: Record)
    ensures BuildModelImport(model).Ok? ==> BuildModelImport(BuildModelImport(model).value) == BuildModelImport(model)
  {
    if BuildModelImport(model).Ok? {
      var s := BuildModelImport(model).value;
      var t := BuildModelImport(s);
      assert t.Ok?;
      assert t.value == s;
    }
  }

  /** Two inputs that agree on the required fields import to the same
      outcome: fields outside the list are dropped and never reported. */
  lemma PipelineImportOnlyListed(p: Record, q: Record)
    requires forall k :: k in PipelineKeys ==> (k in p <==> k in q)
    requires forall k :: k in PipelineKeys && k in p ==> p[k] == q[k]
    ensures BuildPipelineImport(p) == BuildPipelineImport(q)
  {
    FirstAbsentOnlyListed(PipelineKeys, p, q);
    var rp, rq := BuildPipelineImport(p), BuildPipelineImport(q);
    if rp.Ok? {
      assert rp.value == rq.value;
    }
  }

  /** Two inputs that agree on the required fields import to the same
      outcome: fields outside the list are dropped and never reported. */
  lemma ModelImportOnlyListed(m: Record, n: Record)
    requires forall k :: k in ModelKeys ==> (k in m <==> k in n)
    requires forall k :: k in ModelKeys && k in m ==> m[k] == n[k]
    ensures BuildModelImport(m) == BuildModelImport(n)
  {
    FirstAbsentOnlyListed(ModelKeys, m, n);
    var rm, rn := BuildModelImport(m), BuildModelImport(n);
    if rm.Ok? {
      assert rm.value == rn.value;
    }
  }

  /** Right-biased union: every entry of `data` over the entries of `base`. */
  function Overlay(base: Record, data: Record): (r: Record)
    ensures r.Keys == base.Keys + data.Keys
    ensures forall k :: k in data ==> r[k] == data[k]
    ensures forall k :: k in base && k !in data ==> r[k] == base[k]
  {
    base + data
  }

  /** The loop `for key in data: db[key] = data[key]`. Keys are visited in an
      arbitrary order; each is written once, so the order does not matter. */
  method UpdateFrom(db: Record, data: Record) returns (r: Record)
    ensures r == Overlay(db, data)
  {
    r := db;
    var todo := data.Keys;
    while todo != {}
      invariant todo <= data.Keys
      invariant r.Keys == db.Keys + (data.Keys - todo)
      invariant forall k :: k in data && k !in todo ==> r[k] == data[k]
      invariant forall k :: k in db && k !in data ==> r[k] == db[k]
      invariant forall k :: k in db && k in todo ==> r[k] == db[k]
      decreases todo
    {
      var key :| key in todo;
      r := r[key := data[key]];
      todo := todo - {key};
    }
  }

  /** The fields a pipeline export starts from, taken from the arguments. */
  function PipelineBase(name: string, id: string, default: bool, modelIds: Value): Record
  {
    map[
      "models" := modelIds,
      "pipeline_id" := Str(id),
      "pipeline_name" := Str(name),
      "default" := Bool(default)
    ]
  }

  /** Rebuilds a pipeline record from its stored `data` and the columns kept
      beside it; stored fields win over the argument-supplied ones. */
  method BuildPipelineExport(data: Record, name: string, id: string, default: bool, modelIds: Value)
    returns (r: Record)
    ensures r.Keys == PipelineBaseKeys + data.Keys
    ensures forall k :: k in data ==> r[k] == data[k]
    ensures "models" !in data ==> r["models"] == modelIds
    ensures "pipeline_id" !in data ==> r["pipeline_id"] == Str(id)
    ensures "pipeline_name" !in data ==> r["pipeline_name"] == Str(name)
    ensures "default" !in data ==> r["default"] == Bool(default)
    ensures r == Overlay(PipelineBase(name, id, default, modelIds), data)
  {
    var pipelineDb := PipelineBase(name, id, default, modelIds);
    r := UpdateFrom(pipelineDb, data);
  }

  /** The fields a model export starts from, taken from the arguments. */
  function ModelBase(id: string, name: string, endpoint: string, taskName: string, version: string): Record
  {
    map[
      "model_id" := Str(id),
      "model_name" := Str(name),
      "endpoint_name" := Str(endpoint),
      "task" := Str(taskName),
      "version" := Str(version)
    ]
  }

  /** Rebuilds a model record from its stored `data` and the columns kept
      beside it; stored fields, `version` included, win over the arguments. */
  method BuildModelExport(data: Record, id: string, name: string, endpoint: string, taskName: string, version: string)
    returns (r: Record)
    ensures r.Keys == ModelBaseKeys + data.Keys
    ensures forall k :: k in data ==> r[k] == data[k]
    ensures "model_id" !in data ==> r["model_id"] == Str(id)
    ensures "model_name" !in data ==> r["model_name"] == Str(name)
    ensures "endpoint_name" !in data ==> r["endpoint_name"] == Str(endpoint)
    ensures "task" !in data ==> r["task"] == Str(taskName)
    ensures "version" !in data ==> r["version"] == Str(version)
    ensures r == Overlay(ModelBase(id, name, endpoint, taskName, version), data)
  {
    var modelDb := ModelBase(id, name, endpoint, taskName, version);
    r := UpdateFrom(modelDb, data);
  }

  /** A record stored by the pipeline import comes back from export with every
      stored field unchanged; in particular its `models` wins over the
      `modelIds` column, while the identifier still comes from the arguments. */
  lemma PipelineExportOfImport(stored: Record, name: string, id: string, default: bool, modelIds: Value)
    requires stored.Keys == KeySet(PipelineKeys)
    ensures var out := Overlay(PipelineBase(name, id, default, modelIds), stored);
            && (map k | k in stored :: out[k]) == stored
            && out["models"] == stored["models"]
            && out["pipeline_id"] == Str(id)
  {
    assert PipelineKeys[0] == "models";
    assert "pipeline_id" !in KeySet(PipelineKeys);
  }

  /** A record stored by the model import comes back from export with every
      stored field unchanged; in particular its `version` wins over the
      `version` column, while the identifier still comes from the arguments. */
  lemma ModelExportOfImport(stored: Record, id: string, name: string, endpoint: string, taskName: string, version: string)
    requires stored.Keys == KeySet(ModelKeys)
    ensures var out := Overlay(ModelBase(id, name, endpoint, taskName, version), stored);
            && (map k | k in stored :: out[k]) == stored
            && out["version"] == stored["version"]
            && out["model_id"] == Str(id)
  {
    assert ModelKeys[7] == "version";
    assert "model_id" !in KeySet(ModelKeys);
  }
}
